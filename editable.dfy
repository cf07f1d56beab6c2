/**
 * The two editing operations the controller asks of a field's buffer:
 * deleting a range and inserting one code unit at an offset.
 */
module Editable {
  import opened Platform

  /** Removes the units at offsets `from` up to, but not including, `to`. */
  function Delete(s: seq<CodeUnit>, from: int, to: int): (r: seq<CodeUnit>)
    requires 0 <= from <= to <= |s|
    ensures |r| == |s| - (to - from)
    ensures forall i :: 0 <= i < from ==> r[i] == s[i]
    ensures forall i :: from <= i < |r| ==> r[i] == s[i + (to - from)]
  {
    s[..from] + s[to..]
  }

  /** Inserts the unit `c` so that it ends up at offset `at`. */
  function Insert(s: seq<CodeUnit>, at: int, c: CodeUnit): (r: seq<CodeUnit>)
    requires 0 <= at <= |s|
    ensures |r| == |s| + 1
    ensures r[at] == c
    ensures forall i :: 0 <= i < at ==> r[i] == s[i]
    ensures forall i :: at < i < |r| ==> r[i] == s[i - 1]
  {
    s[..at] + [c] + s[at..]
  }

  /** Inserting at the end appends. */
  lemma InsertAtEndAppends(s: seq<CodeUnit>, c: CodeUnit)
    ensures Insert(s, |s|, c) == s + [c]
  {
  }

  /** Deleting the unit just inserted restores the buffer. */
  lemma DeleteUndoesInsert(s: seq<CodeUnit>, at: int, c: CodeUnit)
    requires 0 <= at <= |s|
    ensures Delete(Insert(s, at, c), at, at + 1) == s
  {
  }

  /** Inserting back the unit just deleted restores the buffer. */
  lemma InsertUndoesDelete(s: seq<CodeUnit>, at: int)
    requires 0 <= at < |s|
    ensures Insert(Delete(s, at, at + 1), at, s[at]) == s
  {
  }
}
