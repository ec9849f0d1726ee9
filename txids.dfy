/** Comma-separated transaction-id lists, as the private endpoints that take
    a `txid` argument read them with Python's `txid.split(",")`. */
module Txids {

  /** At most this many ids may be passed in one list. */
  const MaxTxids := 20

  predicate NoComma(s: string) {
    ',' !in s
  }

  /** Python's `s.split(",")`: the maximal comma-free segments of `s`, in
      order, including empty ones; never the empty list. */
  function Split(s: string): (parts: seq<string>)
    ensures |parts| >= 1
    ensures forall i :: 0 <= i < |parts| ==> NoComma(parts[i])
  {
    if s == [] then [""]
    else
      var rest := Split(s[1..]);
      if s[0] == ',' then [""] + rest else [[s[0]] + rest[0]] + rest[1..]
  }

  /** Python's `",".join(parts)`. */
  function Join(parts: seq<string>): string {
    if |parts| == 0 then ""
    else if |parts| == 1 then parts[0]
    else parts[0] + "," + Join(parts[1..])
  }

  /** The list has one more segment than the text has commas. */
  lemma {:induction false} SplitLength(s: string)
    ensures |Split(s)| == multiset(s)[','] + 1
  {
    if s != [] {
      SplitLength(s[1..]);
      assert s == [s[0]] + s[1..];
      assert multiset(s) == multiset([s[0]]) + multiset(s[1..]);
    }
  }

  /** Joining the segments with commas gives back the text. */
  lemma {:induction false} JoinSplit(s: string)
    ensures Join(Split(s)) == s
  {
    if s != [] {
      JoinSplit(s[1..]);
      var rest := Split(s[1..]);
      if s[0] == ',' {
        assert ([""] + rest)[1..] == rest;
      } else {
        assert ([[s[0]] + rest[0]] + rest[1..])[1..] == rest[1..];
        if |rest| > 1 {
          assert Join(rest) == rest[0] + "," + Join(rest[1..]);
        }
      }
    }
  }

  lemma {:induction false} SplitNoComma(p: string)
    requires NoComma(p)
    ensures Split(p) == [p]
  {
    if p != [] {
      SplitNoComma(p[1..]);
      assert [p[0]] + p[1..] == p;
    }
  }

  lemma {:induction false} SplitAfterComma(p: string, t: string)
    requires NoComma(p)
    ensures Split(p + "," + t) == [p] + Split(t)
  {
    var s := p + "," + t;
    if p == [] {
      assert s[1..] == t;
    } else {
      assert s[1..] == p[1..] + "," + t;
      SplitAfterComma(p[1..], t);
      assert [p[0]] + p[1..] == p;
    }
  }

  /** Splitting a comma-joined list of comma-free ids gives back the ids. */
  lemma {:induction false} SplitJoin(ids: seq<string>)
    requires |ids| >= 1
    requires forall i :: 0 <= i < |ids| ==> NoComma(ids[i])
    ensures Split(Join(ids)) == ids
  {
    if |ids| == 1 {
      SplitNoComma(ids[0]);
    } else {
      SplitJoin(ids[1..]);
      SplitAfterComma(ids[0], Join(ids[1..]));
      assert [ids[0]] + ids[1..] == ids;
    }
  }

  /** The guard `len(txid.split(",")) > 20` of the source. */
  predicate TooManyTxids(txid: string) {
    |Split(txid)| > MaxTxids
  }

  /** The guard rejects exactly the texts holding at least twenty commas. */
  lemma TooManyTxidsIffCommas(txid: string)
    ensures TooManyTxids(txid) <==> multiset(txid)[','] >= MaxTxids
  {
    SplitLength(txid);
  }

  /** A list of `n` ids joined with commas passes the guard iff `n <= 20`. */
  lemma TooManyTxidsOfJoin(ids: seq<string>)
    requires |ids| >= 1
    requires forall i :: 0 <= i < |ids| ==> NoComma(ids[i])
    ensures TooManyTxids(Join(ids)) <==> |ids| > MaxTxids
  {
    SplitJoin(ids);
  }
}
