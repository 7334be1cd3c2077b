/**
 The values a logbook row is made of.

 A source row arrives as a hash whose keys are symbols (`:engine_time`); renaming turns the
 known ones into target labels, which are strings (`"Total Time"`). Both kinds of key live in
 the same working row, so a key carries its kind. Cell values are opaque strings, the integer
 defaults of two columns, or nil.
 */
module Cells {

  /** A hash key: a Ruby symbol or a Ruby string, with its name. */
  datatype Key = Sym(name: string) | Str(name: string)

  /** A cell value: a string, an integer, or nil. Time values stay opaque strings. */
  datatype Value = Text(text: string) | Num(n: int) | Nil

  /** The working row of a conversion: a hash from keys to values. */
  type Row = map<Key, Value>

  /** One entry of a source row, in the order the hash holds it. */
  datatype Field = Field(key: Key, value: Value)

  /** A source row: a hash, written as its entries in insertion order. */
  type SourceRow = seq<Field>

  /** A hash never holds the same key twice. */
  predicate DistinctKeys(fields: SourceRow)
  {
    forall i, j :: 0 <= i < j < |fields| ==> fields[i].key != fields[j].key
  }

  /** `row[k]`: the value stored under `k`, or nil when `k` is absent. */
  function Get(row: Row, k: Key): Value
  {
    if k in row then row[k] else Nil
  }

  /** Ruby truthiness of a cell: everything except nil. */
  predicate Truthy(v: Value)
  {
    !v.Nil?
  }
}
