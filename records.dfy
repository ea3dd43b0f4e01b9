/** Values shared by every component: the field values an event record may hold,
    the record itself, and the bytes handed to the transport. */
module Records {

  /** A field value of an event record. The records built by the client carry
      strings (ids, descriptors, currency) and integers (timestamp, counters, amount). */
  datatype Value = Str(s: string) | Int(i: int)

  /** An event record: a dictionary from field name to value. */
  type Record = map<string, Value>

  newtype byte = b: int | 0 <= b < 256

  type Bytes = seq<byte>
}
