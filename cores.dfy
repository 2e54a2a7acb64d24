/**
 * The two types the registry takes from the external DeltaCore framework.
 * Both are opaque handles here: only their identity matters.
 */
module Cores {

  /** A game-type tag. The framework declares the eight tags the app names;
      `Unlisted` stands for any other tag the framework or a plug-in may declare. */
  datatype GameType = Nes | Snes | N64 | Gb | Gbc | Gba | Ds | Genesis | Unlisted(rawValue: string)

  /** The emulation cores the app links: one per system, the legacy DS core and
      the MelonDS core for DS, and Genesis Plus GX for the Sega systems. */
  datatype Core = NesCore | SnesCore | N64Core | GbCore | GbcCore | GbaCore | DsCore | MelonDSCore | GpgxCore
}
