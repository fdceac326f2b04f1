/** The three JavaScript string and array built-ins the log formatter chains
    together to cut a timestamp out of a date string:
    `String.prototype.split` with a one-character separator,
    `Array.prototype.slice` with non-negative bounds, and
    `Array.prototype.join` with a one-character separator. */
module JsText {

  /** `s.split(c)`: cuts `s` at every occurrence of `c`. Adjacent separators
      give empty pieces and the empty string splits into one empty piece, so
      there is always at least one piece and no piece holds the separator. */
  function Split(s: string, c: char): (r: seq<string>)
    ensures |r| >= 1
    ensures forall k :: 0 <= k < |r| ==> c !in r[k]
    decreases |s|
  {
    if |s| == 0 then [""]
    else if s[0] == c then [""] + Split(s[1..], c)
    else
      var rest := Split(s[1..], c);
      [[s[0]] + rest[0]] + rest[1..]
  }

  /** `ts.join(c)`: the pieces in order with one `c` between neighbours. */
  function Join(ts: seq<string>, c: char): string
  {
    if |ts| == 0 then ""
    else if |ts| == 1 then ts[0]
    else ts[0] + [c] + Join(ts[1..], c)
  }

  /** `xs.slice(start, end)` for non-negative bounds: both bounds are clamped
      to the length, and an empty array results when the start is not before
      the end. */
  function Slice<T>(xs: seq<T>, start: nat, end: nat): (r: seq<T>)
    ensures start <= |xs| ==> |r| == (if end <= start then 0 else if end <= |xs| then end - start else |xs| - start)
    ensures start > |xs| ==> r == []
    ensures forall k :: 0 <= k < |r| ==> start + k < |xs| && r[k] == xs[start + k]
  {
    var lo := if start <= |xs| then start else |xs|;
    var hi := if end <= |xs| then end else |xs|;
    if lo < hi then xs[lo..hi] else []
  }

  /** Joining the pieces of a split gives back the string that was split. */
  lemma {:induction false} JoinSplit(s: string, c: char)
    ensures Join(Split(s, c), c) == s
    decreases |s|
  {
    if |s| == 0 {
    } else if s[0] == c {
      JoinSplit(s[1..], c);
      var rest := Split(s[1..], c);
      assert Split(s, c) == [""] + rest;
      assert ([""] + rest)[1..] == rest;
      assert s == [c] + s[1..];
    } else {
      JoinSplit(s[1..], c);
      var rest := Split(s[1..], c);
      var r := [[s[0]] + rest[0]] + rest[1..];
      assert Split(s, c) == r;
      if |rest| == 1 {
        assert Join(rest, c) == rest[0];
      } else {
        assert r[1..] == rest[1..];
        assert Join(r, c) == [s[0]] + rest[0] + [c] + Join(rest[1..], c);
        assert Join(rest, c) == rest[0] + [c] + Join(rest[1..], c);
      }
      assert s == [s[0]] + s[1..];
    }
  }

  /** Splitting a separator-free prefix `t` followed by `s` glues `t` onto the
      first piece of `s` and leaves the other pieces alone. */
  lemma {:induction false} SplitPrefix(t: string, s: string, c: char)
    requires c !in t
    ensures Split(t + s, c) == [t + Split(s, c)[0]] + Split(s, c)[1..]
    decreases |t|
  {
    if |t| == 0 {
      assert t + s == s;
      assert t + Split(s, c)[0] == Split(s, c)[0];
      assert [Split(s, c)[0]] + Split(s, c)[1..] == Split(s, c);
    } else {
      SplitPrefix(t[1..], s, c);
      assert (t + s)[1..] == t[1..] + s;
      assert (t + s)[0] == t[0] && t[0] != c;
      assert [t[0]] + (t[1..] + Split(s, c)[0]) == t + Split(s, c)[0];
    }
  }

  /** Splitting a join of separator-free pieces gives the pieces back; the
      piece list must be non-empty because `[].join(c)` and `[""].join(c)`
      are both the empty string. */
  lemma {:induction false} SplitJoin(ts: seq<string>, c: char)
    requires |ts| >= 1
    requires forall k :: 0 <= k < |ts| ==> c !in ts[k]
    ensures Split(Join(ts, c), c) == ts
    decreases |ts|
  {
    if |ts| == 1 {
      SplitPrefix(ts[0], "", c);
      assert ts[0] + "" == ts[0];
    } else {
      SplitJoin(ts[1..], c);
      var tail := Join(ts[1..], c);
      assert Join(ts, c) == ts[0] + ([c] + tail);
      SplitPrefix(ts[0], [c] + tail, c);
      assert ([c] + tail)[1..] == tail;
      assert Split([c] + tail, c) == [""] + ts[1..];
      assert ts[0] + "" == ts[0];
      assert ts == [ts[0]] + ts[1..];
    }
  }

  /** Splitting the join of separator-free pieces, followed by a separator
      and any further text, gives those pieces and then the pieces of the
      further text: whatever follows cannot reach back into them. */
  lemma {:induction false} SplitJoinThen(ts: seq<string>, s: string, c: char)
    requires |ts| >= 1
    requires forall k :: 0 <= k < |ts| ==> c !in ts[k]
    ensures Split(Join(ts, c) + [c] + s, c) == ts + Split(s, c)
    decreases |ts|
  {
    assert ([c] + s)[1..] == s;
    assert Split([c] + s, c) == [""] + Split(s, c);
    if |ts| == 1 {
      assert Join(ts, c) + [c] + s == ts[0] + ([c] + s);
      SplitPrefix(ts[0], [c] + s, c);
      assert ts[0] + "" == ts[0];
    } else {
      SplitJoinThen(ts[1..], s, c);
      var rest := Join(ts[1..], c) + [c] + s;
      assert Join(ts, c) + [c] + s == ts[0] + ([c] + rest);
      SplitPrefix(ts[0], [c] + rest, c);
      assert ([c] + rest)[1..] == rest;
      assert Split([c] + rest, c) == [""] + (ts[1..] + Split(s, c));
      assert ts[0] + "" == ts[0];
      assert ts == [ts[0]] + ts[1..];
    }
  }
}
