/** Values shared by every part of the model. */
module Types {

  type byte = n: int | 0 <= n < 256

  type Bytes = seq<byte>

  /** A channel name: the UTF-8 bytes of the server's string. */
  type Channel = Bytes

  const U64_MAX: nat := 0xFFFF_FFFF_FFFF_FFFF

  datatype Option<+T> = None | Some(value: T)

  datatype Result<+T, +E> = Ok(value: T) | Err(error: E)

  /** A publication as a subscriber receives it. */
  datatype Publication = Publication(channel: Channel, offset: nat, data: Bytes)

  /** The bytes of an ASCII text. */
  function Ascii(text: string): Bytes {
    seq(|text|, i requires 0 <= i < |text| => text[i] as int % 128)
  }

  function Flatten(parts: seq<Bytes>): Bytes {
    if parts == [] then [] else parts[0] + Flatten(parts[1..])
  }

  /** Map lookup with a default for the keys a map does not hold yet. */
  function Get<K, V>(m: map<K, V>, k: K, default: V): V {
    if k in m then m[k] else default
  }
}
