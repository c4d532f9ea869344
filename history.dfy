/**
 * The transaction-history projection: `applyFilter` keeps the records whose
 * direction, relative to the active account, matches the selected filter.
 */
module History {
  import opened Common
  import opened Addresses

  /** A decoded `TokenTransfer` event. */
  datatype TransferRecord = TransferRecord(from: string, to: string, value: string)

  datatype Direction = Incoming | Outgoing

  /**
   * The record's recipient (sender, for outgoing) equals the account once both
   * are lower-cased. With no account the lower-cased account is undefined,
   * which no address equals.
   */
  predicate Matches(tx: TransferRecord, dir: Direction, account: Option<string>)
  {
    account.Some? && Lower(if dir == Incoming then tx.to else tx.from) == Lower(account.value)
  }

  /** The records of one direction, in input order. */
  function Select(txs: seq<TransferRecord>, dir: Direction, account: Option<string>): (r: seq<TransferRecord>)
    ensures |r| <= |txs|
    ensures forall i | 0 <= i < |r| :: Matches(r[i], dir, account) && r[i] in txs
  {
    if txs == [] then []
    else if Matches(txs[0], dir, account) then [txs[0]] + Select(txs[1..], dir, account)
    else Select(txs[1..], dir, account)
  }

  /** `applyFilter`: "incoming" and "outgoing" select by direction; any other value keeps everything. */
  function ApplyFilter(txs: seq<TransferRecord>, selected: string, account: Option<string>): seq<TransferRecord>
  {
    if selected == "incoming" then Select(txs, Incoming, account)
    else if selected == "outgoing" then Select(txs, Outgoing, account)
    else txs
  }

  /** `a` can be obtained from `b` by deleting elements, so `a` keeps `b`'s order. */
  predicate IsSubsequence<T(==)>(a: seq<T>, b: seq<T>)
    decreases |b|
  {
    if a == [] then true
    else if b == [] then false
    else if a[0] == b[0] then IsSubsequence(a[1..], b[1..])
    else IsSubsequence(a, b[1..])
  }

  /** The selection keeps the input's order. */
  lemma {:induction false} SelectIsSubsequence(txs: seq<TransferRecord>, dir: Direction, account: Option<string>)
    ensures IsSubsequence(Select(txs, dir, account), txs)
  {
    if txs != [] {
      SelectIsSubsequence(txs[1..], dir, account);
      if !Matches(txs[0], dir, account) {
        SkipKeepsSubsequence(Select(txs[1..], dir, account), txs[0], txs[1..]);
      }
    }
  }

  lemma {:induction false} SkipKeepsSubsequence<T>(a: seq<T>, x: T, b: seq<T>)
    requires IsSubsequence(a, b)
    ensures IsSubsequence(a, [x] + b)
    decreases |b|, 1
  {
    if a != [] && a[0] == x {
      assert IsSubsequence(a[1..], b) by { TailKeepsSubsequence(a, b); }
    }
    assert ([x] + b)[1..] == b;
  }

  lemma {:induction false} TailKeepsSubsequence<T>(a: seq<T>, b: seq<T>)
    requires a != [] && IsSubsequence(a, b)
    ensures IsSubsequence(a[1..], b)
    decreases |b|, 0
  {
    if a[0] == b[0] {
      if a[1..] != [] {
        TailKeepsSubsequence(a[1..], b[1..]);
        SkipKeepsSubsequence(a[1..], b[0], b[1..]);
        assert [b[0]] + b[1..] == b;
      }
    } else {
      TailKeepsSubsequence(a, b[1..]);
      SkipKeepsSubsequence(a[1..], b[0], b[1..]);
      assert [b[0]] + b[1..] == b;
    }
  }

  /** Every matching record is kept as often as it occurs, and no other record is. */
  lemma {:induction false} SelectCounts(txs: seq<TransferRecord>, dir: Direction, account: Option<string>, tx: TransferRecord)
    ensures multiset(Select(txs, dir, account))[tx] == if Matches(tx, dir, account) then multiset(txs)[tx] else 0
  {
    if txs != [] {
      SelectCounts(txs[1..], dir, account, tx);
      var rest := Select(txs[1..], dir, account);
      assert txs == [txs[0]] + txs[1..];
      assert multiset(txs) == multiset{txs[0]} + multiset(txs[1..]);
      if Matches(txs[0], dir, account) {
        assert multiset([txs[0]] + rest) == multiset{txs[0]} + multiset(rest);
      }
    }
  }

  /** Selecting twice by the same direction and account gives the same as selecting once. */
  lemma {:induction false} SelectIdempotent(txs: seq<TransferRecord>, dir: Direction, account: Option<string>)
    ensures Select(Select(txs, dir, account), dir, account) == Select(txs, dir, account)
  {
    if txs != [] {
      SelectIdempotent(txs[1..], dir, account);
      if Matches(txs[0], dir, account) {
        assert ([txs[0]] + Select(txs[1..], dir, account))[1..] == Select(txs[1..], dir, account);
      }
    }
  }

  /** With no active account both directional filters are empty. */
  lemma {:induction false} SelectWithoutAccount(txs: seq<TransferRecord>, dir: Direction)
    ensures Select(txs, dir, None) == []
  {
    if txs != [] {
      SelectWithoutAccount(txs[1..], dir);
    }
  }

  /** Only the lower-cased account matters: two spellings differing in case select the same records. */
  lemma {:induction false} SelectIgnoresAccountCase(txs: seq<TransferRecord>, dir: Direction, a: string, b: string)
    requires Lower(a) == Lower(b)
    ensures Select(txs, dir, Some(a)) == Select(txs, dir, Some(b))
  {
    if txs != [] {
      SelectIgnoresAccountCase(txs[1..], dir, a, b);
    }
  }

  /**
   * "incoming" keeps exactly the records addressed to the account ("outgoing":
   * sent from it), in their original order; any other value, "all" included,
   * returns the input unchanged.
   */
  lemma FilterCharacterisation(txs: seq<TransferRecord>, selected: string, account: Option<string>)
    ensures selected == "incoming" ==>
      var r := ApplyFilter(txs, selected, account);
      IsSubsequence(r, txs) &&
      (forall i | 0 <= i < |r| :: account.Some? && Lower(r[i].to) == Lower(account.value)) &&
      (forall tx: TransferRecord | account.Some? && Lower(tx.to) == Lower(account.value) :: multiset(r)[tx] == multiset(txs)[tx])
    ensures selected == "outgoing" ==>
      var r := ApplyFilter(txs, selected, account);
      IsSubsequence(r, txs) &&
      (forall i | 0 <= i < |r| :: account.Some? && Lower(r[i].from) == Lower(account.value)) &&
      (forall tx: TransferRecord | account.Some? && Lower(tx.from) == Lower(account.value) :: multiset(r)[tx] == multiset(txs)[tx])
    ensures selected != "incoming" && selected != "outgoing" ==> ApplyFilter(txs, selected, account) == txs
  {
    if selected == "incoming" || selected == "outgoing" {
      var dir := if selected == "incoming" then Incoming else Outgoing;
      SelectIsSubsequence(txs, dir, account);
      forall tx | Matches(tx, dir, account)
        ensures multiset(Select(txs, dir, account))[tx] == multiset(txs)[tx]
      {
        SelectCounts(txs, dir, account, tx);
      }
    }
  }

  /** Re-applying the same filter to its own result changes nothing. */
  lemma ApplyFilterIdempotent(txs: seq<TransferRecord>, selected: string, account: Option<string>)
    ensures ApplyFilter(ApplyFilter(txs, selected, account), selected, account) == ApplyFilter(txs, selected, account)
  {
    if selected == "incoming" {
      SelectIdempotent(txs, Incoming, account);
    } else if selected == "outgoing" {
      SelectIdempotent(txs, Outgoing, account);
    }
  }

  /** With no active account, "incoming" and "outgoing" show nothing. */
  lemma ApplyFilterWithoutAccount(txs: seq<TransferRecord>, selected: string)
    ensures selected == "incoming" || selected == "outgoing" ==> ApplyFilter(txs, selected, None) == []
  {
    SelectWithoutAccount(txs, Incoming);
    SelectWithoutAccount(txs, Outgoing);
  }
}
