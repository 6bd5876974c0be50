/** JSON request bodies: a header, elements separated by commas, and a fixed end. */
module RequestBody {
  import opened TelemetryCodec

  const COMMA: byte := 44
  const BODY_END: Bytes := [93, 125]

  function Joined(items: seq<Bytes>): Bytes {
    if |items| == 0 then []
    else if |items| == 1 then items[0]
    else Joined(items[..|items| - 1]) + [COMMA] + items[|items| - 1]
  }

  function Body(header: Bytes, items: seq<Bytes>): Bytes {
    header + Joined(items) + BODY_END
  }

  function Total(items: seq<Bytes>): nat {
    if items == [] then 0 else Total(items[..|items| - 1]) + |items[|items| - 1]|
  }

  lemma {:induction false} TotalSnoc(items: seq<Bytes>, i: nat)
    requires i < |items|
    ensures Total(items[..i + 1]) == Total(items[..i]) + |items[i]|
  {
    assert items[..i + 1][..i] == items[..i];
  }

  lemma {:induction false} JoinedSnoc(items: seq<Bytes>, i: nat)
    requires i < |items|
    ensures Joined(items[..i + 1]) == Joined(items[..i]) + (if i > 0 then [COMMA] else []) + items[i]
  {
    assert items[..i + 1][..i] == items[..i];
  }

  lemma {:induction false} JoinedLength(items: seq<Bytes>)
    requires items != []
    ensures |Joined(items)| == Total(items) + |items| - 1
  {
    if |items| > 1 {
      JoinedLength(items[..|items| - 1]);
    } else {
      assert Total(items[..0]) == 0;
    }
  }

  /** Element i lies behind the elements before it and their commas, and a comma or the end
      follows it. */
  lemma {:induction false} JoinedPlaces(items: seq<Bytes>, i: nat)
    requires i < |items|
    ensures var at, n := Total(items[..i]) + i, |items[i]|; var data := Joined(items);
      && at + n <= |data| && data[at..at + n] == items[i]
      && (if i + 1 < |items| then at + n < |data| && data[at + n] == COMMA else at + n == |data|)
  {
    var n := |items| - 1;
    var front := items[..n];
    assert items == front + [items[n]];
    if n > 0 {
      JoinedLength(front);
      if i < n {
        JoinedPlaces(front, i);
        assert front[..i] == items[..i];
      }
    } else {
      assert items[..0] == [];
    }
  }
}
