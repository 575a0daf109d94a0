/** Value types of the .NET surface the sender works with. */
module Types {

  /** C# `byte`: 8-bit unsigned. */
  newtype uint8 = x: int | 0 <= x < 0x100

  /** C# `UInt16`, the type of a universe id. */
  newtype uint16 = x: int | 0 <= x < 0x1_0000

  /** C# `int`, the type of the settable `Port` property. */
  newtype int32 = x: int | -0x8000_0000 <= x < 0x8000_0000

  datatype Option<+T> = None | Some(value: T)

  /** A `System.Guid`: always sixteen bytes. */
  type Guid = s: seq<uint8> | |s| == 16 witness seq(16, _ => 0)

  /** A `System.Net.IPAddress`, given by its address bytes. */
  datatype IPAddress = IPAddress(bytes: seq<uint8>)
}
