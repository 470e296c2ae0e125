/** The ordering `getMessages` applies to a conversation
    (services/db.ts:59): `Array.prototype.sort` with the comparator
    `a.timestamp - b.timestamp`. That sort is stable, so it is modelled as
    an insertion sort that places each message before the first one that
    is not earlier than it. */
module MessageOrder {

  import opened Types
  import opened Seqs

  /** Non-decreasing by timestamp. */
  ghost predicate SortedByTime(s: seq<Message>) {
    forall i, j :: 0 <= i < j < |s| ==> s[i].timestamp <= s[j].timestamp
  }

  /** Inserts `m` in front of the first message of `s` that is not earlier. */
  function InsertByTime(m: Message, s: seq<Message>): (r: seq<Message>)
    ensures multiset(r) == multiset(s) + multiset{m}
  {
    if s == [] then [m]
    else if m.timestamp <= s[0].timestamp then [m] + s
    else
      assert s == [s[0]] + s[1..];
      [s[0]] + InsertByTime(m, s[1..])
  }

  lemma {:induction false} InsertKeepsSorted(m: Message, s: seq<Message>)
    requires SortedByTime(s)
    ensures SortedByTime(InsertByTime(m, s))
  {
    if s != [] && m.timestamp > s[0].timestamp {
      var rest := InsertByTime(m, s[1..]);
      InsertKeepsSorted(m, s[1..]);
      forall x | x in rest ensures s[0].timestamp <= x.timestamp {
        assert x in multiset(rest);
        if x != m {
          assert x in s[1..];
        }
      }
    }
  }

  /** The sorted copy `getMessages` returns. */
  function SortByTime(s: seq<Message>): (r: seq<Message>)
    ensures SortedByTime(r)
    ensures multiset(r) == multiset(s)
  {
    if s == [] then []
    else
      assert s == [s[0]] + s[1..];
      InsertKeepsSorted(s[0], SortByTime(s[1..]));
      InsertByTime(s[0], SortByTime(s[1..]))
  }

  /** Inserting into a sorted sequence does not reorder the messages that
      a same-timestamp selection `p` picks. */
  lemma {:induction false} InsertKeepsSelection(m: Message, s: seq<Message>, p: Message -> bool)
    requires SortedByTime(s)
    requires forall a, b :: p(a) && p(b) ==> a.timestamp == b.timestamp
    ensures Filter(InsertByTime(m, s), p) == Filter([m], p) + Filter(s, p)
  {
    if s == [] {
    } else if m.timestamp <= s[0].timestamp {
      FilterAppend([m], s, p);
    } else {
      assert SortedByTime(s[1..]);
      InsertKeepsSelection(m, s[1..], p);
      // m is strictly later than s[0], so p cannot pick both of them
      assert !(p(m) && p(s[0]));
      InsertPastHead(m, s, p);
    }
  }

  /** The step of InsertKeepsSelection where `m` goes past the head of `s`. */
  lemma {:induction false} InsertPastHead(m: Message, s: seq<Message>, p: Message -> bool)
    requires s != [] && m.timestamp > s[0].timestamp
    requires !(p(m) && p(s[0]))
    requires Filter(InsertByTime(m, s[1..]), p) == Filter([m], p) + Filter(s[1..], p)
    ensures Filter(InsertByTime(m, s), p) == Filter([m], p) + Filter(s, p)
  {
  }

  /** Stability: any selection of messages that share one timestamp comes
      out of the sort in the order it had going in. */
  lemma {:induction false} SortIsStable(s: seq<Message>, p: Message -> bool)
    requires forall a, b :: p(a) && p(b) ==> a.timestamp == b.timestamp
    ensures Filter(SortByTime(s), p) == Filter(s, p)
  {
    if s != [] {
      SortIsStable(s[1..], p);
      InsertKeepsSelection(s[0], SortByTime(s[1..]), p);
      assert s == [s[0]] + s[1..];
      FilterAppend([s[0]], s[1..], p);
    }
  }
}
