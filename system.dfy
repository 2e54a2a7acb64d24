/**
 * The system registry: the emulated systems, their game types and cores, the
 * systems whose cores are registered, and the file-extension lookup.
 */
module Systems {
  import opened Wrappers
  import opened Ascii
  import Cores

  /** The supported systems, in declaration order. */
  datatype System = Nes | Genesis | Snes | N64 | Gb | Gbc | Gba | Ds {

    /** Position of the system in declaration order. */
    function Ordinal(): (n: nat)
      ensures n < |AllCases| && AllCases[n] == this
    {
      match this
      case Nes => 0
      case Genesis => 1
      case Snes => 2
      case N64 => 3
      case Gb => 4
      case Gbc => 5
      case Gba => 6
      case Ds => 7
    }

    /** The game-type tag of the system; it is one of the eight named tags, and
        looking the system up by it gives the system back. */
    function GameType(): (t: Cores.GameType)
      ensures !t.Unlisted?
      ensures SystemOf(t) == Some(this)
    {
      match this
      case Nes => Cores.Nes
      case Snes => Cores.Snes
      case N64 => Cores.N64
      case Gb => Cores.Gb
      case Gbc => Cores.Gbc
      case Gba => Cores.Gba
      case Ds => Cores.Ds
      case Genesis => Cores.Genesis
    }

    /** The core that runs games of this system. `preferredCores` is the user's
        per-game-type core preference; only DS consults it. */
    function DeltaCore(preferredCores: map<Cores.GameType, Cores.Core>): (c: Cores.Core)
      ensures this == Ds && Cores.Ds in preferredCores ==> c == preferredCores[Cores.Ds]
      ensures this == Ds && Cores.Ds !in preferredCores ==> c == Cores.MelonDSCore
    {
      match this
      case Nes => Cores.NesCore
      case Snes => Cores.SnesCore
      case N64 => Cores.N64Core
      case Gb => Cores.GbCore
      case Gbc => Cores.GbcCore
      case Gba => Cores.GbaCore
      case Ds => if Cores.Ds in preferredCores then preferredCores[Cores.Ds] else Cores.MelonDSCore
      case Genesis => Cores.GpgxCore
    }
  }

  /** `System.allCases`: every system, in declaration order. */
  const AllCases: seq<System> := [Nes, Genesis, Snes, N64, Gb, Gbc, Gba, Ds]

  lemma AllCasesListsEverySystemInOrder()
    ensures forall s: System :: s in AllCases
    ensures InDeclarationOrder(AllCases)
  {
    forall s: System ensures s in AllCases {
      assert AllCases[s.Ordinal()] == s;
    }
    forall i | 0 <= i < |AllCases| ensures AllCases[i].Ordinal() == i {
    }
  }

  /** `System(gameType:)`: the system of a game type, none for an unlisted tag. */
  function SystemOf(t: Cores.GameType): (s: Option<System>)
    ensures s.None? <==> t.Unlisted?
  {
    match t
    case Nes => Some(System.Nes)
    case Snes => Some(System.Snes)
    case N64 => Some(System.N64)
    case Gb => Some(System.Gb)
    case Gbc => Some(System.Gbc)
    case Gba => Some(System.Gba)
    case Ds => Some(System.Ds)
    case Genesis => Some(System.Genesis)
    case Unlisted(_) => None
  }

  /** No two systems share a game type. */
  lemma GameTypeInjective(a: System, b: System)
    ensures a.GameType() == b.GameType() ==> a == b
  {
  }

  /** Every game type resolves to a system except the unlisted ones, and a resolved
      system carries that game type. */
  lemma SystemOfRoundTrip(t: Cores.GameType)
    ensures SystemOf(t).Some? ==> SystemOf(t).value.GameType() == t
  {
  }

  /** A system other than DS runs on one fixed core, whatever the preferences say. */
  lemma OnlyDsHonoursPreference(s: System, p: map<Cores.GameType, Cores.Core>, q: map<Cores.GameType, Cores.Core>)
    requires s != Ds
    ensures s.DeltaCore(p) == s.DeltaCore(q)
  {
  }

  /** The fixed cores of the systems other than DS are pairwise distinct, and none
      of them is a DS core. */
  lemma FixedCoresDistinct(a: System, b: System, p: map<Cores.GameType, Cores.Core>)
    requires a != Ds && b != Ds
    ensures a.DeltaCore(p) != Cores.DsCore && a.DeltaCore(p) != Cores.MelonDSCore
    ensures a.DeltaCore(p) == b.DeltaCore(p) ==> a == b
  {
  }

  // ---------------------------------------------------------------------------
  // registeredSystems

  /** `r` can be obtained from `xs` by deleting elements. */
  predicate IsSubsequence<T(==)>(r: seq<T>, xs: seq<T>)
    decreases |xs|
  {
    r == [] || (xs != [] && ((r[0] == xs[0] && IsSubsequence(r[1..], xs[1..])) || IsSubsequence(r, xs[1..])))
  }

  /** Strictly increasing in declaration order (so also free of repeats). */
  predicate InDeclarationOrder(r: seq<System>) {
    forall i, j :: 0 <= i < j < |r| ==> r[i].Ordinal() < r[j].Ordinal()
  }

  /** The systems of `xs`, in their order in `xs`, whose game type is in `keys`. */
  function Filter(xs: seq<System>, keys: set<Cores.GameType>): (r: seq<System>)
    ensures forall s :: s in r <==> s in xs && s.GameType() in keys
    ensures IsSubsequence(r, xs)
  {
    if xs == [] then []
    else if xs[0].GameType() in keys then [xs[0]] + Filter(xs[1..], keys)
    else Filter(xs[1..], keys)
  }

  lemma {:induction false} SubsequenceElements<T>(r: seq<T>, xs: seq<T>)
    requires IsSubsequence(r, xs)
    ensures forall x :: x in r ==> x in xs
    decreases |xs|
  {
    if r != [] {
      if r[0] == xs[0] && IsSubsequence(r[1..], xs[1..]) {
        SubsequenceElements(r[1..], xs[1..]);
        forall x | x in r ensures x in xs {
          if x != r[0] { assert x in r[1..]; }
        }
      } else {
        SubsequenceElements(r, xs[1..]);
      }
    }
  }

  /** Deleting elements keeps declaration order. */
  lemma {:induction false} SubsequenceKeepsOrder(r: seq<System>, xs: seq<System>)
    requires IsSubsequence(r, xs) && InDeclarationOrder(xs)
    ensures InDeclarationOrder(r)
    decreases |xs|
  {
    if r != [] {
      assert InDeclarationOrder(xs[1..]);
      if r[0] == xs[0] && IsSubsequence(r[1..], xs[1..]) {
        SubsequenceKeepsOrder(r[1..], xs[1..]);
        SubsequenceElements(r[1..], xs[1..]);
        forall i, j | 0 <= i < j < |r| ensures r[i].Ordinal() < r[j].Ordinal() {
          if i == 0 {
            assert r[j] in r[1..];
            var k :| 0 <= k < |xs[1..]| && xs[1..][k] == r[j];
            assert xs[k + 1] == r[j];
          } else {
            assert r[i] == r[1..][i - 1] && r[j] == r[1..][j - 1];
          }
        }
      } else {
        SubsequenceKeepsOrder(r, xs[1..]);
      }
    }
  }

  /** `System.registeredSystems`: the systems, in declaration order, whose game type
      is a key of the registered-core table `registeredCores`. */
  function RegisteredSystems(registeredCores: map<Cores.GameType, Cores.Core>): (r: seq<System>)
    ensures forall s :: s in r <==> s.GameType() in registeredCores
    ensures IsSubsequence(r, AllCases)
    ensures InDeclarationOrder(r)
  {
    AllCasesListsEverySystemInOrder();
    var r := Filter(AllCases, registeredCores.Keys);
    SubsequenceKeepsOrder(r, AllCases);
    r
  }

  lemma HeadIsMember<T>(s: seq<T>)
    ensures s != [] ==> s[0] in s
  {
  }

  /** The tail of a list in declaration order is in declaration order and holds
      exactly the members other than the head, each of larger ordinal. */
  lemma OrderedTail(a: seq<System>)
    requires InDeclarationOrder(a) && a != []
    ensures InDeclarationOrder(a[1..])
    ensures forall s :: s in a[1..] ==> a[0].Ordinal() < s.Ordinal()
    ensures forall s :: s in a[1..] <==> s in a && s != a[0]
  {
    forall s | s in a[1..] ensures a[0].Ordinal() < s.Ordinal() {
      var k :| 0 <= k < |a[1..]| && a[1..][k] == s;
      assert a[k + 1] == s;
    }
    forall s | s in a && s != a[0] ensures s in a[1..] {
      var m :| 0 <= m < |a| && a[m] == s;
      assert a[1..][m - 1] == s;
    }
  }

  /** The two properties of `RegisteredSystems` pin the result down: any list of
      systems in declaration order with the same members is the same list. */
  lemma {:induction false} OrderedListsWithSameMembersAreEqual(a: seq<System>, b: seq<System>)
    requires InDeclarationOrder(a) && InDeclarationOrder(b)
    requires forall s :: s in a <==> s in b
    ensures a == b
    decreases |a| + |b|
  {
    if a != [] && b != [] {
      OrderedTail(a);
      OrderedTail(b);
      // The head of each is the member of least ordinal.
      assert a[0] == b[0] by {
        HeadIsMember(a);
        HeadIsMember(b);
      }
      OrderedListsWithSameMembersAreEqual(a[1..], b[1..]);
      assert a == [a[0]] + a[1..] && b == [b[0]] + b[1..];
    } else if a != [] {
      HeadIsMember(a);
      assert false;
    } else if b != [] {
      HeadIsMember(b);
      assert false;
    }
  }

  /** With every core registered, every system is listed; with none, none is. */
  lemma RegisteredSystemsExtremes(all: map<Cores.GameType, Cores.Core>)
    requires forall s: System :: s.GameType() in all
    ensures RegisteredSystems(all) == AllCases
    ensures RegisteredSystems(map[]) == []
  {
    var r := RegisteredSystems(all);
    AllCasesListsEverySystemInOrder();
    OrderedListsWithSameMembersAreEqual(r, AllCases);
    var e := RegisteredSystems(map[]);
    if e != [] {
      HeadIsMember(e);
      assert false;
    }
  }

  // ---------------------------------------------------------------------------
  // GameType(fileExtension:)

  /** The extension switch, applied to an already lower-cased extension: it hits
      exactly the keys of the extension table and gives their entries. */
  function ExtensionSwitch(ext: string): (t: Option<Cores.GameType>)
    ensures t.Some? <==> ext in FileExtensionMap
    ensures t.Some? ==> t.value == FileExtensionMap[ext]
  {
    match ext
    case "nes" => Some(Cores.Nes)
    case "smc" | "sfc" | "fig" => Some(Cores.Snes)
    case "n64" | "z64" => Some(Cores.N64)
    case "gb" => Some(Cores.Gb)
    case "gbc" => Some(Cores.Gbc)
    case "gba" => Some(Cores.Gba)
    case "ds" | "nds" => Some(Cores.Ds)
    case "gen" | "bin" | "md" | "smd" | "sms" | "gg" | "sg" | "mdx" | "m3u" | "chd" => Some(Cores.Genesis)
    case _ => None
  }

  /** `GameType(fileExtension:)`: lower-case the extension, then look it up. Every
      extension that resolves gives a game type some system carries. */
  function GameTypeOfExtension(fileExtension: string): (t: Option<Cores.GameType>)
    ensures t.Some? ==> !t.value.Unlisted? && SystemOf(t.value).Some?
  {
    ExtensionSwitch(Lower(fileExtension))
  }

  /** The file-extension map as a table: lower-case extension to game type. */
  const FileExtensionMap: map<string, Cores.GameType> := map[
    "nes" := Cores.Nes,
    "smc" := Cores.Snes, "sfc" := Cores.Snes, "fig" := Cores.Snes,
    "n64" := Cores.N64, "z64" := Cores.N64,
    "gb" := Cores.Gb,
    "gbc" := Cores.Gbc,
    "gba" := Cores.Gba,
    "ds" := Cores.Ds, "nds" := Cores.Ds,
    "gen" := Cores.Genesis, "bin" := Cores.Genesis, "md" := Cores.Genesis, "smd" := Cores.Genesis,
    "sms" := Cores.Genesis, "gg" := Cores.Genesis, "sg" := Cores.Genesis, "mdx" := Cores.Genesis,
    "m3u" := Cores.Genesis, "chd" := Cores.Genesis
  ]

  /** The lookup agrees with the table on every input: a hit on the lower-cased
      extension gives its entry, a miss gives nothing. */
  lemma ExtensionLookupMatchesTable(fileExtension: string)
    ensures GameTypeOfExtension(fileExtension) ==
      if Lower(fileExtension) in FileExtensionMap then Some(FileExtensionMap[Lower(fileExtension)]) else None
  {
  }

  /** The lookup ignores the case of ASCII letters. */
  lemma ExtensionLookupIgnoresCase(a: string, b: string)
    requires EqualIgnoringCase(a, b)
    ensures GameTypeOfExtension(a) == GameTypeOfExtension(b)
    ensures GameTypeOfExtension(a) == GameTypeOfExtension(Lower(a))
  {
    LowerDecidesCase(a, b);
    LowerIsLowerCase(a);
  }

  /** Every key of the table is lower-case, so every entry is reachable, and every
      game type in it belongs to a system. */
  lemma FileExtensionMapIsLowerCase()
    ensures forall k :: k in FileExtensionMap ==> IsLowerCase(k)
    ensures forall k :: k in FileExtensionMap ==> GameTypeOfExtension(k) == Some(FileExtensionMap[k])
    ensures forall k :: k in FileExtensionMap ==> SystemOf(FileExtensionMap[k]).Some?
  {
    forall k | k in FileExtensionMap ensures IsLowerCase(k) && GameTypeOfExtension(k) == Some(FileExtensionMap[k]) {
      assert IsLowerCase(k);
      LowerOfLowerCase(k);
    }
  }

  /** "smc", "sfc" and "fig" give the Super Nintendo game type. */
  lemma SnesExtensions(e: string)
    requires e in ["smc", "sfc", "fig"]
    ensures GameTypeOfExtension(e) == Some(Cores.Snes)
  {
    LowerOfLowerCase(e);
  }

  /** "n64" and "z64" give the Nintendo 64 game type. */
  lemma N64Extensions(e: string)
    requires e in ["n64", "z64"]
    ensures GameTypeOfExtension(e) == Some(Cores.N64)
  {
    LowerOfLowerCase(e);
  }

  /** "ds" and "nds" give the DS game type. */
  lemma DsExtensions(e: string)
    requires e in ["ds", "nds"]
    ensures GameTypeOfExtension(e) == Some(Cores.Ds)
  {
    LowerOfLowerCase(e);
  }

  /** The ten extensions of the Sega systems all give the Genesis game type. */
  lemma SegaExtensions(e: string)
    requires e in ["gen", "bin", "md", "smd", "sms", "gg", "sg", "mdx", "m3u", "chd"]
    ensures GameTypeOfExtension(e) == Some(Cores.Genesis)
  {
    LowerOfLowerCase(e);
  }

  /** Upper-case spellings resolve like their lower-case ones. */
  lemma UpperCaseSpellings()
    ensures GameTypeOfExtension("SFC") == Some(Cores.Snes)
    ensures GameTypeOfExtension("NDS") == Some(Cores.Ds)
  {
    SnesExtensions("sfc");
    DsExtensions("nds");
    ExtensionLookupIgnoresCase("SFC", "sfc");
    ExtensionLookupIgnoresCase("NDS", "nds");
  }

  /** An unknown extension and the empty extension give nothing. */
  lemma UnknownExtensions()
    ensures GameTypeOfExtension("zip") == None
    ensures GameTypeOfExtension("") == None
  {
    LowerOfLowerCase("zip");
  }
}
