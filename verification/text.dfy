/** Go's `strings.Split` for a one-character separator, and its inverse `Join`.
    Both the runtime codec and the bearer-header parser split on a single space. */
module Text {

  /** Concatenates `parts`, putting `sep` between neighbours. */
  function Join(parts: seq<string>, sep: char): string
    decreases |parts|
  {
    if |parts| == 0 then ""
    else if |parts| == 1 then parts[0]
    else parts[0] + [sep] + Join(parts[1..], sep)
  }

  /** `strings.Split(s, string(sep))`: the pieces between consecutive separators.
      There is always one more piece than there are separators, and the empty
      string splits into one empty piece. */
  function Split(s: string, sep: char): (parts: seq<string>)
    ensures |parts| >= 1
    ensures forall i :: 0 <= i < |parts| ==> sep !in parts[i]
    ensures Join(parts, sep) == s
    decreases |s|
  {
    if |s| == 0 then [""]
    else if s[0] == sep then [""] + Split(s[1..], sep)
    else
      var rest := Split(s[1..], sep);
      assert Join(rest, sep) == s[1..];
      var parts := [[s[0]] + rest[0]] + rest[1..];
      assert sep !in parts[0];
      JoinCons(rest, sep);
      JoinCons(parts, sep);
      assert parts[1..] == rest[1..];
      parts
  }

  /** Joining peels off the first piece. */
  lemma JoinCons(parts: seq<string>, sep: char)
    requires |parts| >= 1
    ensures Join(parts, sep) == parts[0] + (if |parts| == 1 then "" else [sep] + Join(parts[1..], sep))
  {
  }

  /** The pieces of `Split` are the only separator-free pieces that join back to `s`. */
  lemma {:induction false} SplitUnique(s: string, sep: char, parts: seq<string>)
    requires |parts| >= 1
    requires forall i :: 0 <= i < |parts| ==> sep !in parts[i]
    requires Join(parts, sep) == s
    ensures Split(s, sep) == parts
    decreases |s|
  {
    JoinCons(parts, sep);
    if parts[0] == "" {
      if |parts| == 1 {
        assert s == "";
      } else {
        var tail := parts[1..];
        assert s == [sep] + Join(tail, sep);
        assert s[0] == sep && s[1..] == Join(tail, sep);
        forall i | 0 <= i < |tail| ensures sep !in tail[i] {
          assert tail[i] == parts[i + 1];
        }
        SplitUnique(s[1..], sep, tail);
        assert parts == [""] + tail;
      }
    } else {
      var head := parts[0];
      var shorter := [head[1..]] + parts[1..];
      assert head[0] in head;
      assert s[0] == head[0] && s[0] != sep;
      forall i | 0 <= i < |shorter| ensures sep !in shorter[i] {
        if i == 0 {
          assert forall c :: c in head[1..] ==> c in head;
        } else {
          assert shorter[i] == parts[i];
        }
      }
      JoinCons(shorter, sep);
      assert shorter[1..] == parts[1..];
      assert Join(shorter, sep) == s[1..];
      SplitUnique(s[1..], sep, shorter);
      assert [head[0]] + head[1..] == head;
      assert parts == [[s[0]] + shorter[0]] + shorter[1..];
    }
  }

  /** A string holding exactly one separator splits into the two sides around it. */
  lemma SplitPair(a: string, b: string, sep: char)
    requires sep !in a && sep !in b
    ensures Split(a + [sep] + b, sep) == [a, b]
  {
    var parts := [a, b];
    JoinCons(parts, sep);
    assert parts[1..] == [b];
    SplitUnique(a + [sep] + b, sep, parts);
  }

  /** Conversely, a two-piece split puts exactly one separator between the pieces. */
  lemma SplitPairInverse(s: string, sep: char)
    requires |Split(s, sep)| == 2
    ensures s == Split(s, sep)[0] + [sep] + Split(s, sep)[1]
  {
    var parts := Split(s, sep);
    JoinCons(parts, sep);
    assert parts[1..] == [parts[1]];
  }
}
