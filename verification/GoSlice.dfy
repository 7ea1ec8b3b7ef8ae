/**
 Go slices of strings: a length over a backing array that other slices may share. `Append` writes
 into the backing array when there is room, as Go's `append` does, and copies otherwise.
 */
module GoSlice {

  datatype Slice = Slice(backing: array?<string>, len: nat) {

    predicate Valid()
    {
      if backing == null then len == 0 else len <= backing.Length
    }

    ghost function Arrays(): set<object> {
      if backing == null then {} else {backing}
    }

    /** This slice is a shorter view of the same array. */
    ghost predicate SharedBy(longer: Slice) {
      backing == longer.backing && len <= longer.len
    }

    /** The elements as a value, for example to join them into a text. */
    method ToSeq() returns (s: seq<string>)
      requires Valid()
      ensures s == Contents()
    {
      s := if backing == null then [] else backing[..len];
    }

    function Contents(): seq<string>
      requires Valid()
      reads backing
    {
      if backing == null then [] else backing[..len]
    }
  }

  const NIL := Slice(null, 0)

  method Literal(x: string) returns (s: Slice)
    ensures s.Valid() && fresh(s.Arrays())
    ensures s.Contents() == [x]
  {
    var a := new string[1][x];
    s := Slice(a, 1);
  }

  method Contains(s: Slice, x: string) returns (found: bool)
    requires s.Valid()
    ensures found <==> x in s.Contents()
  {
    if s.backing == null {
      return false;
    }
    for i := 0 to s.len
      invariant x !in s.backing[..i]
    {
      if s.backing[i] == x {
        assert s.backing[..s.len][i] == x;
        return true;
      }
    }
    found := false;
  }

  /** Only the cell after the end of `s` may be written; how much a fresh array grows is left open. */
  method Append(s: Slice, x: string) returns (r: Slice)
    requires s.Valid()
    modifies s.Arrays()
    ensures r.Valid()
    ensures r.len == s.len + 1
    ensures s.SharedBy(r) || fresh(r.Arrays())
    ensures s.Contents() == old(s.Contents())
    ensures r.Contents() == old(s.Contents()) + [x]
  {
    if s.backing != null && s.len < s.backing.Length {
      s.backing[s.len] := x;
      r := Slice(s.backing, s.len + 1);
    } else {
      var spare: nat :| true;
      var a := new string[s.len + 1 + spare](_ => "");
      for i := 0 to s.len
        invariant a.Length == s.len + 1 + spare
        invariant forall j | 0 <= j < i :: a[j] == s.backing[j]
        invariant s.Contents() == old(s.Contents())
      {
        a[i] := s.backing[i];
      }
      a[s.len] := x;
      r := Slice(a, s.len + 1);
      assert a[..s.len] == s.Contents();
    }
  }

  /** As long as a slice keeps its contents, so do the shorter views of its array. */
  lemma SharedContents(s: Slice, longer: Slice)
    requires s.Valid() && longer.Valid() && s.SharedBy(longer)
    ensures s.Contents() == longer.Contents()[..s.len]
  {
  }
}
