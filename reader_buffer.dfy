/**
 * The CSV reader's lookahead buffer. While inferring configuration values the
 * reader consumes Unicode scalars ahead of the parse; it gives them back to this
 * buffer and later replays them, in order, before reading new input.
 */
module ReaderBuffer {
  import opened Scalars
  import opened Reversal

  class ScalarBuffer {
    /** The stored scalars, kept in REVERSE of the order they are handed out, so
        that the next scalar to produce is the last element of the storage. */
    var readScalars: seq<Scalar>

    /** The buffered scalars in the order `Next` produces them. */
    ghost var Contents: seq<Scalar>

    /** The storage holds exactly the logical contents, reversed. */
    ghost predicate Valid()
      reads this
    {
      Contents == Reversed(readScalars)
    }

    /** A new, empty buffer; the capacity is an allocation hint only. */
    constructor (capacity: int)
      ensures Valid()
      ensures Contents == [] && readScalars == []
    {
      readScalars := [];
      Contents := [];
    }

    /** Produces the front scalar and removes it, or answers `None` when nothing is buffered. */
    method Next() returns (r: Option<Scalar>)
      requires Valid()
      modifies this
      ensures Valid()
      ensures r == None <==> old(Contents) == []
      ensures old(Contents) == [] ==> Contents == [] && readScalars == old(readScalars)
      ensures old(Contents) != [] ==> r == Some(old(Contents)[0]) && Contents == old(Contents)[1..]
      ensures old(readScalars) != [] ==> readScalars == old(readScalars)[..|old(readScalars)| - 1]
    {
      if readScalars == [] {
        return None;
      }
      var n := |readScalars|;
      var last := readScalars[n - 1];
      readScalars := readScalars[..n - 1];
      Contents := Contents[1..];
      r := Some(last);
    }

    /** Puts one scalar back at the front: it is the very next one produced. */
    method PrependScalar(scalar: Scalar)
      requires Valid()
      modifies this
      ensures Valid()
      ensures Contents == [scalar] + old(Contents)
      ensures readScalars == old(readScalars) + [scalar]
    {
      readScalars := readScalars + [scalar];
      Contents := [scalar] + Contents;
    }

    /** Puts a whole sequence back at the front, keeping its own order: it is
        produced first, in the order given, followed by what was buffered. */
    method PrependScalars(scalars: seq<Scalar>)
      requires Valid()
      modifies this
      ensures Valid()
      ensures Contents == scalars + old(Contents)
      ensures readScalars == old(readScalars) + Reversed(scalars)
    {
      readScalars := readScalars + Reversed(scalars);
      Contents := scalars + Contents;
    }

    /** Adds one scalar at the back: it is produced after everything buffered. */
    method AppendScalar(scalar: Scalar)
      requires Valid()
      modifies this
      ensures Valid()
      ensures Contents == old(Contents) + [scalar]
      ensures readScalars == [scalar] + old(readScalars)
    {
      readScalars := [scalar] + readScalars;
      Contents := Contents + [scalar];
    }

    /** Adds a whole sequence at the back, keeping its order. */
    method AppendScalars(scalars: seq<Scalar>)
      requires Valid()
      modifies this
      ensures Valid()
      ensures Contents == old(Contents) + scalars
      ensures readScalars == Reversed(scalars) + old(readScalars)
    {
      readScalars := Reversed(scalars) + readScalars;
      Contents := Contents + scalars;
    }

    /** Discards every buffered scalar. */
    method RemoveAll()
      requires Valid()
      modifies this
      ensures Valid()
      ensures Contents == [] && readScalars == []
    {
      readScalars := [];
      Contents := [];
    }
  }
}
