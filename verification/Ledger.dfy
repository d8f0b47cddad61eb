/** The transfer adapter's verdict judged against what a token's ledger really did. */
module Ledger {
  import opened Erc20
  import opened Governor
  import opened Jobs
  import opened Text
  import opened Wrappers

  // ------------------------------------------------------------------ counting

  ghost function Count<T(!new)>(test: T -> bool, xs: seq<T>): nat {
    if xs == [] then 0 else (if test(xs[0]) then 1 else 0) + Count(test, xs[1..])
  }

  lemma {:induction false} CountSplits<T(!new)>(test: T -> bool, xs: seq<T>, ys: seq<T>)
    ensures Count(test, xs + ys) == Count(test, xs) + Count(test, ys)
  {
    if xs == [] {
      assert xs + ys == ys;
    } else {
      assert (xs + ys)[1..] == xs[1..] + ys;
      CountSplits(test, xs[1..], ys);
    }
  }

  lemma {:induction false} CountAlike<T(!new), U(!new)>(test: T -> bool, xs: seq<T>, other: U -> bool, ys: seq<U>)
    requires |xs| == |ys| && forall i :: 0 <= i < |xs| ==> test(xs[i]) == other(ys[i])
    ensures Count(test, xs) == Count(other, ys)
  {
    if xs != [] {
      CountAlike(test, xs[1..], other, ys[1..]);
    }
  }

  /** The test holds at `i` and nowhere else. */
  ghost predicate OnlyAt<T(!new)>(test: T -> bool, xs: seq<T>, i: int) {
    0 <= i < |xs| && test(xs[i]) && forall k :: 0 <= k < |xs| && test(xs[k]) ==> k == i
  }

  lemma {:induction false} CountZero<T(!new)>(test: T -> bool, xs: seq<T>)
    ensures Count(test, xs) == 0 <==> forall k :: 0 <= k < |xs| ==> !test(xs[k])
  {
    if xs != [] {
      CountZero(test, xs[1..]);
      assert forall k :: 0 < k < |xs| ==> xs[k] == xs[1..][k - 1];
      assert forall k :: 0 <= k < |xs[1..]| ==> xs[1..][k] == xs[k + 1];
    }
  }

  lemma {:induction false} CountOne<T(!new)>(test: T -> bool, xs: seq<T>)
    ensures Count(test, xs) == 1 <==> exists i :: OnlyAt(test, xs, i)
  {
    if xs != [] {
      CountOne(test, xs[1..]);
      CountZero(test, xs[1..]);
      assert forall k :: 0 < k < |xs| ==> xs[k] == xs[1..][k - 1];
      assert forall k :: 0 <= k < |xs[1..]| ==> xs[1..][k] == xs[k + 1];
      if test(xs[0]) {
        if Count(test, xs) == 1 { assert OnlyAt(test, xs, 0); }
      } else {
        forall i | OnlyAt(test, xs, i) ensures Count(test, xs) == 1 { assert OnlyAt(test, xs[1..], i - 1); }
        forall i | OnlyAt(test, xs[1..], i) ensures exists k :: OnlyAt(test, xs, k) { assert OnlyAt(test, xs, i + 1); }
      }
    }
  }

  // ------------------------------------------------------------------ what the log match finds

  ghost function LogTest(recipient: HexAddress, amount: nat): TransferLog -> bool {
    (l: TransferLog) => SameAddress(l.to, recipient) && l.amount == amount
  }

  /** A raw log that is a Transfer of exactly this amount of this token to this recipient. */
  predicate Pays(log: Log, token: HexAddress, recipient: HexAddress, amount: nat) {
    IsTokenTransfer(log, token) && SameAddress(log.transfer.value.to, recipient) && log.transfer.value.value == amount
  }

  ghost function RawTest(token: HexAddress, recipient: HexAddress, amount: nat): Log -> bool {
    (log: Log) => Pays(log, token, recipient, amount)
  }

  lemma {:induction false} FullMatchesCount(logs: seq<TransferLog>, recipient: HexAddress, amount: nat)
    ensures |OfAmount(ToRecipient(logs, recipient), amount)| == Count(LogTest(recipient, amount), logs)
  {
    if logs != [] {
      FullMatchesCount(logs[1..], recipient, amount);
      var rest := ToRecipient(logs[1..], recipient);
      if SameAddress(logs[0].to, recipient) {
        assert ToRecipient(logs, recipient) == [logs[0]] + rest && ([logs[0]] + rest)[1..] == rest;
      } else {
        assert ToRecipient(logs, recipient) == rest;
      }
    }
  }

  lemma {:induction false} DecodedCount(logs: seq<Log>, token: HexAddress, recipient: HexAddress, amount: nat, n: nat)
    requires n <= |logs|
    ensures Count(LogTest(recipient, amount), TokenTransfers(logs, token, n)) ==
              Count(RawTest(token, recipient, amount), logs[..n])
  {
    if n > 0 {
      DecodedCount(logs, token, recipient, amount, n - 1);
      var front := TokenTransfers(logs, token, n - 1);
      assert logs[..n] == logs[..n - 1] + [logs[n - 1]];
      CountSplits(RawTest(token, recipient, amount), logs[..n - 1], [logs[n - 1]]);
      if IsTokenTransfer(logs[n - 1], token) {
        CountSplits(LogTest(recipient, amount), front, [TransferLogOf(logs[n - 1])]);
      }
    }
  }

  ghost function TokenTest(token: HexAddress): Log -> bool {
    (log: Log) => IsTokenTransfer(log, token)
  }

  /** The k-th decoded log is the token's k-th well-formed Transfer: its parties, its value, and its index or -1. */
  lemma {:induction false} DecodedAre(logs: seq<Log>, token: HexAddress, n: nat, i: nat)
    requires i < n <= |logs| && IsTokenTransfer(logs[i], token)
    ensures |TokenTransfers(logs, token, n)| == Count(TokenTest(token), logs[..n])
    ensures Count(TokenTest(token), logs[..i]) < |TokenTransfers(logs, token, n)|
    ensures var l, t := TokenTransfers(logs, token, n)[Count(TokenTest(token), logs[..i])], logs[i].transfer.value;
            && l.from == t.from && l.to == t.to && l.amount == t.value
            && (if logs[i].logIndex.Some? then l.logIndex == logs[i].logIndex.value else l.logIndex == -1)
  {
    hide IsTokenTransfer;
    DecodedMany(logs, token, n);
    DecodedMany(logs, token, n - 1);
    assert logs[..n] == logs[..n - 1] + [logs[n - 1]];
    CountSplits(TokenTest(token), logs[..n - 1], [logs[n - 1]]);
    if i < n - 1 { DecodedAre(logs, token, n - 1, i); }
  }

  lemma {:induction false} DecodedMany(logs: seq<Log>, token: HexAddress, n: nat)
    requires n <= |logs|
    ensures |TokenTransfers(logs, token, n)| == Count(TokenTest(token), logs[..n])
  {
    hide IsTokenTransfer;
    if n > 0 {
      DecodedMany(logs, token, n - 1);
      assert logs[..n] == logs[..n - 1] + [logs[n - 1]];
      CountSplits(TokenTest(token), logs[..n - 1], [logs[n - 1]]);
    }
  }

  /** A raw log that is a Transfer of any amount of this token to this recipient. */
  predicate Credits(log: Log, token: HexAddress, recipient: HexAddress) {
    IsTokenTransfer(log, token) && SameAddress(log.transfer.value.to, recipient)
  }

  ghost function CreditTest(token: HexAddress, recipient: HexAddress): Log -> bool {
    (log: Log) => Credits(log, token, recipient)
  }

  ghost function ToTest(recipient: HexAddress): TransferLog -> bool {
    (l: TransferLog) => SameAddress(l.to, recipient)
  }

  lemma {:induction false} RecipientCount(logs: seq<TransferLog>, recipient: HexAddress)
    ensures |ToRecipient(logs, recipient)| == Count(ToTest(recipient), logs)
  {
    hide SameAddress;
    if logs != [] { RecipientCount(logs[1..], recipient); }
  }

  lemma {:induction false} CreditedCount(logs: seq<Log>, token: HexAddress, recipient: HexAddress, n: nat)
    requires n <= |logs|
    ensures Count(ToTest(recipient), TokenTransfers(logs, token, n)) == Count(CreditTest(token, recipient), logs[..n])
  {
    if n > 0 {
      CreditedCount(logs, token, recipient, n - 1);
      var front := TokenTransfers(logs, token, n - 1);
      assert logs[..n] == logs[..n - 1] + [logs[n - 1]];
      CountSplits(CreditTest(token, recipient), logs[..n - 1], [logs[n - 1]]);
      if IsTokenTransfer(logs[n - 1], token) {
        CountSplits(ToTest(recipient), front, [TransferLogOf(logs[n - 1])]);
      }
    }
  }

  lemma {:induction false} DecodedFrom(logs: seq<Log>, token: HexAddress, n: nat, l: TransferLog)
    requires n <= |logs| && l in TokenTransfers(logs, token, n)
    ensures exists i :: 0 <= i < n && IsTokenTransfer(logs[i], token) && TransferLogOf(logs[i]) == l
  {
    hide SameAddress;
    var front := TokenTransfers(logs, token, n - 1);
    if l in front {
      DecodedFrom(logs, token, n - 1, l);
    } else {
      assert IsTokenTransfer(logs[n - 1], token) && TransferLogOf(logs[n - 1]) == l;
    }
  }

  lemma {:induction false} MatchesFrom(logs: seq<TransferLog>, recipient: HexAddress, l: TransferLog)
    ensures l in ToRecipient(logs, recipient) ==> l in logs && SameAddress(l.to, recipient)
  {
    hide SameAddress;
    if logs != [] { MatchesFrom(logs[1..], recipient, l); }
  }

  lemma {:induction false} AmountsFrom(logs: seq<TransferLog>, amount: nat, l: TransferLog)
    ensures l in OfAmount(logs, amount) ==> l in logs && l.amount == amount
  {
    if logs != [] { AmountsFrom(logs[1..], amount, l); }
  }

  /** What the match carries comes from a log that pays. */
  lemma FullMatchFrom(logs: seq<Log>, token: HexAddress, recipient: HexAddress, amount: nat, l: TransferLog)
    requires l in OfAmount(ToRecipient(TokenTransfers(logs, token, |logs|), recipient), amount)
    ensures exists i :: 0 <= i < |logs| && Pays(logs[i], token, recipient, amount) && TransferLogOf(logs[i]) == l
  {
    hide SameAddress, TokenTransfers, ToRecipient, OfAmount;
    var decoded := TokenTransfers(logs, token, |logs|);
    AmountsFrom(ToRecipient(decoded, recipient), amount, l);
    MatchesFrom(decoded, recipient, l);
    DecodedFrom(logs, token, |logs|, l);
    var i :| 0 <= i < |logs| && IsTokenTransfer(logs[i], token) && TransferLogOf(logs[i]) == l;
    assert Pays(logs[i], token, recipient, amount);
  }

  /**
   * The match, on the raw logs of the transaction. MATCHED: one log pays, and it is the one returned. AMBIGUOUS:
   * several pay. MISMATCH: none pays, though some credit the recipient. MISSING: none credits it.
   */
  lemma MatchedExactlyWhen(logs: seq<Log>, token: HexAddress, recipient: HexAddress, amount: nat)
    ensures var m := MatchTransferLog(TokenTransfers(logs, token, |logs|), recipient, amount);
            var pays := RawTest(token, recipient, amount);
            var credits := CreditTest(token, recipient);
            && (m.Matched? <==> exists i :: OnlyAt(pays, logs, i))
            && (m.Matched? ==> exists i :: OnlyAt(pays, logs, i) && m.log == TransferLogOf(logs[i]))
            && (m.Ambiguous? <==> exists i, k :: 0 <= i < k < |logs| && pays(logs[i]) && pays(logs[k]))
            && (m.Ambiguous? ==> |m.matches| == Count(pays, logs))
            && (m.Mismatch? <==>
                  (forall i :: 0 <= i < |logs| ==> !pays(logs[i])) && exists i :: 0 <= i < |logs| && credits(logs[i]))
            && (m.Mismatch? ==> |m.candidates| == Count(credits, logs))
            && (m.Missing? <==> forall i :: 0 <= i < |logs| ==> !credits(logs[i]))
  {
    var pays, credits := RawTest(token, recipient, amount), CreditTest(token, recipient);
    var decoded := TokenTransfers(logs, token, |logs|);
    var m := MatchTransferLog(decoded, recipient, amount);
    assert logs[..|logs|] == logs;
    FullMatchesCount(decoded, recipient, amount);
    DecodedCount(logs, token, recipient, amount, |logs|);
    RecipientCount(decoded, recipient);
    CreditedCount(logs, token, recipient, |logs|);
    CountOne(pays, logs);
    CountZero(pays, logs);
    CountZero(credits, logs);
    assert forall log :: pays(log) ==> credits(log);
    hide Pays, Credits, TokenTransfers, ToRecipient, OfAmount, SameAddress;
    if Count(pays, logs) > 1 {
      var i :| 0 <= i < |logs| && pays(logs[i]);
      assert !OnlyAt(pays, logs, i);
    }
    if m.Matched? {
      FullMatchFrom(logs, token, recipient, amount, m.log);
      var i :| 0 <= i < |logs| && Pays(logs[i], token, recipient, amount) && TransferLogOf(logs[i]) == m.log;
      assert pays(logs[i]) && OnlyAt(pays, logs, i);
    }
  }

  /** Each reason the adapter gives, in terms of the transaction's raw logs and of the two balances. */
  lemma VerdictExactlyWhen(before: int, after: int, amount: nat, token: HexAddress, recipient: HexAddress,
                           logs: Option<seq<Log>>)
    ensures var r := Verdict(before, after, amount, token, recipient, logs);
            && (r.TransferLogMissing? <==>
                  logs.None? || forall i :: 0 <= i < |logs.value| ==> !Credits(logs.value[i], token, recipient))
            && (r.TransferLogMismatch? <==>
                  && logs.Some?
                  && (forall i :: 0 <= i < |logs.value| ==> !Pays(logs.value[i], token, recipient, amount))
                  && exists i :: 0 <= i < |logs.value| && Credits(logs.value[i], token, recipient))
            && (r.AmbiguousTransferEvidence? <==>
                  logs.Some? &&
                  exists i, k :: 0 <= i < k < |logs.value| && Pays(logs.value[i], token, recipient, amount) &&
                                 Pays(logs.value[k], token, recipient, amount))
            && (r.ExactMatch? || r.BalanceDeltaMismatch? <==>
                  logs.Some? && exists i :: OnlyAt(RawTest(token, recipient, amount), logs.value, i))
            && (r.ExactMatch? ==> after == before + amount) && (r.BalanceDeltaMismatch? ==> after != before + amount)
  {
    if logs.Some? {
      MatchedExactlyWhen(logs.value, token, recipient, amount);
      var pays, credits := RawTest(token, recipient, amount), CreditTest(token, recipient);
      assert forall log :: pays(log) == Pays(log, token, recipient, amount);
      assert forall log :: credits(log) == Credits(log, token, recipient);
      hide Pays, Credits, MatchTransferLog, TokenTransfers;
    }
  }

  // ------------------------------------------------------------------ the ledger

  /**
   * One movement of a token. A transfer debits its sender and credits its recipient, by whatever the token makes of
   * the logged value; an adjustment (a rebase, a mint without an event) changes one balance and logs nothing.
   */
  datatype Movement =
    | Transferred(tx: TxHash, from: HexAddress, to: HexAddress, value: nat, debited: int, credited: int)
    | Adjustment(holder: HexAddress, delta: int)

  /** What one movement does to a holder's balance. */
  function Effect(m: Movement, holder: HexAddress): int {
    match m
    case Transferred(_, from, to, _, debited, credited) =>
      (if SameAddress(to, holder) then credited else 0) - (if SameAddress(from, holder) then debited else 0)
    case Adjustment(who, delta) => if SameAddress(who, holder) then delta else 0
  }

  function Net(ms: seq<Movement>, holder: HexAddress): int {
    if ms == [] then 0 else Effect(ms[0], holder) + Net(ms[1..], holder)
  }

  /** A token whose balances change exactly by its logged transfers. */
  ghost predicate Exact(ms: seq<Movement>) {
    forall i :: 0 <= i < |ms| ==> ms[i].Transferred? && ms[i].debited == ms[i].value && ms[i].credited == ms[i].value
  }

  function TransfersOf(ms: seq<Movement>, tx: TxHash): (r: seq<Movement>)
    ensures forall i :: 0 <= i < |r| ==> r[i].Transferred? && r[i].tx == tx
  {
    if ms == [] then []
    else (if ms[0].Transferred? && ms[0].tx == tx then [ms[0]] else []) + TransfersOf(ms[1..], tx)
  }

  /** The transaction's logs are the token's record of the transfers it made, in order. */
  ghost predicate Recorded(logs: seq<Log>, token: HexAddress, ms: seq<Movement>, tx: TxHash) {
    var seen, made := TokenTransfers(logs, token, |logs|), TransfersOf(ms, tx);
    && |seen| == |made|
    && forall i :: 0 <= i < |seen| ==>
         seen[i].to == made[i].to && seen[i].from == made[i].from && seen[i].amount == made[i].value
  }

  ghost function MoveTest(tx: TxHash, recipient: HexAddress, amount: nat): Movement -> bool {
    (m: Movement) => m.Transferred? && m.tx == tx && SameAddress(m.to, recipient) && m.value == amount
  }

  lemma {:induction false} TransfersCount(ms: seq<Movement>, tx: TxHash, recipient: HexAddress, amount: nat)
    ensures Count(MoveTest(tx, recipient, amount), TransfersOf(ms, tx)) == Count(MoveTest(tx, recipient, amount), ms)
  {
    if ms != [] {
      TransfersCount(ms[1..], tx, recipient, amount);
      var head := if ms[0].Transferred? && ms[0].tx == tx then [ms[0]] else [];
      CountSplits(MoveTest(tx, recipient, amount), head, TransfersOf(ms[1..], tx));
    }
  }

  lemma {:induction false} NetSplits(xs: seq<Movement>, ys: seq<Movement>, holder: HexAddress)
    ensures Net(xs + ys, holder) == Net(xs, holder) + Net(ys, holder)
  {
    if xs == [] {
      assert xs + ys == ys;
    } else {
      assert (xs + ys)[1..] == xs[1..] + ys;
      NetSplits(xs[1..], ys, holder);
    }
  }

  function Without(ms: seq<Movement>, i: nat): seq<Movement>
    requires i < |ms|
  {
    ms[..i] + ms[i + 1..]
  }

  lemma NetWithout(ms: seq<Movement>, i: nat, holder: HexAddress)
    requires i < |ms|
    ensures Net(ms, holder) == Net(Without(ms, i), holder) + Effect(ms[i], holder)
  {
    assert ms == ms[..i] + ([ms[i]] + ms[i + 1..]);
    NetSplits(ms[..i], [ms[i]] + ms[i + 1..], holder);
    NetSplits([ms[i]], ms[i + 1..], holder);
    NetSplits(ms[..i], ms[i + 1..], holder);
  }

  /**
   * The verdict for any token at all: the adapter accepts exactly when one transfer of the transaction pays the
   * recipient the authorized amount and that transfer's effect, with everything else that moved the recipient's
   * balance between the two reads, comes to the authorized amount.
   */
  lemma AcceptedExactlyWhen(ms: seq<Movement>, tx: TxHash, logs: seq<Log>, token: HexAddress, recipient: HexAddress,
                            amount: nat, before: int, after: int)
    requires Recorded(logs, token, ms, tx) && after - before == Net(ms, recipient)
    ensures Verdict(before, after, amount, token, recipient, Some(logs)).ExactMatch? <==>
              exists i :: OnlyAt(MoveTest(tx, recipient, amount), ms, i) &&
                          Net(Without(ms, i), recipient) + Effect(ms[i], recipient) == amount
  {
    var test, seen, made := MoveTest(tx, recipient, amount), TokenTransfers(logs, token, |logs|), TransfersOf(ms, tx);
    FullMatchesCount(seen, recipient, amount);
    CountAlike(LogTest(recipient, amount), seen, test, made);
    TransfersCount(ms, tx, recipient, amount);
    CountOne(test, ms);
    forall i | OnlyAt(test, ms, i) ensures Net(Without(ms, i), recipient) + Effect(ms[i], recipient) == after - before {
      NetWithout(ms, i, recipient);
    }
  }

  /**
   * For a token that moves exactly what it logs, "accepted iff the one matching transfer is there and everything else
   * nets to zero" holds exactly when the transfer is not one from the recipient to itself, or its amount is zero, or
   * the rest nets to something that is neither zero nor the amount.
   */
  lemma NetZeroDecidesExactlyWhen(ms: seq<Movement>, tx: TxHash, logs: seq<Log>, token: HexAddress,
                                  recipient: HexAddress, amount: nat, before: int, after: int, i: nat)
    requires Exact(ms) && Recorded(logs, token, ms, tx) && after - before == Net(ms, recipient)
    requires OnlyAt(MoveTest(tx, recipient, amount), ms, i)
    ensures var others := Net(Without(ms, i), recipient);
            (Verdict(before, after, amount, token, recipient, Some(logs)).ExactMatch? <==> others == 0) <==>
            (!SameAddress(ms[i].from, recipient) || amount == 0 || (others != 0 && others != amount))
  {
    AcceptedExactlyWhen(ms, tx, logs, token, recipient, amount, before, after);
  }

  /** The intended reading, on every input but a payment from the recipient to itself. */
  lemma ExactTokenAccepted(ms: seq<Movement>, tx: TxHash, logs: seq<Log>, token: HexAddress, recipient: HexAddress,
                           amount: nat, before: int, after: int)
    requires Exact(ms) && Recorded(logs, token, ms, tx) && after - before == Net(ms, recipient)
    requires forall i :: 0 <= i < |ms| && MoveTest(tx, recipient, amount)(ms[i]) ==> !SameAddress(ms[i].from, recipient)
    ensures Verdict(before, after, amount, token, recipient, Some(logs)).ExactMatch? <==>
              exists i :: OnlyAt(MoveTest(tx, recipient, amount), ms, i) && Net(Without(ms, i), recipient) == 0
  {
    hide Verdict, Recorded, Net;
    AcceptedExactlyWhen(ms, tx, logs, token, recipient, amount, before, after);
    forall i | OnlyAt(MoveTest(tx, recipient, amount), ms, i) ensures Effect(ms[i], recipient) == amount {
    }
  }

  /** A self-payment of 5 beside an unrelated receipt of 5 is accepted, although the rest does not net to zero. */
  lemma SelfPaymentIsMisjudged()
    ensures var self := Transferred("0x1", "0xa", "0xa", 5, 5, 5);
            var other := Transferred("0x2", "0xb", "0xa", 5, 5, 5);
            var logs := [Log("0xt", true, Some(TransferArgs("0xa", "0xa", 5)), None)];
            && Exact([self, other]) && Recorded(logs, "0xt", [self, other], "0x1")
            && Net(Without([self, other], 0), "0xa") == 5
            && Verdict(0, Net([self, other], "0xa"), 5, "0xt", "0xa", Some(logs)).ExactMatch?
            && !Verdict(0, Net([self], "0xa"), 5, "0xt", "0xa", Some(logs)).ExactMatch?
  {
    var self := Transferred("0x1", "0xa", "0xa", 5, 5, 5);
    var other := Transferred("0x2", "0xb", "0xa", 5, 5, 5);
    var ms := [self, other];
    var logs := [Log("0xt", true, Some(TransferArgs("0xa", "0xa", 5)), None)];
    var l := TransferLog(-1, "0xa", "0xa", 5);
    assert SameAddress("0xa", "0xa") && SameAddress("0xt", "0xt");
    assert ToLower("0xb")[2] == 'b' && ToLower("0xa")[2] == 'a';
    assert !SameAddress("0xb", "0xa");
    assert TokenTransfers(logs, "0xt", 0) == [];
    assert TokenTransfers(logs, "0xt", 1) == [l];
    assert ms[1..] == [other] && ms[1..][1..] == [];
    assert TransfersOf([other], "0x1") == [] && TransfersOf(ms, "0x1") == [self];
    assert [l][1..] == [] && [other][1..] == [];
    assert OfAmount([], 5) == [] && ToRecipient([], "0xa") == [] && Net([], "0xa") == 0;
    assert ToRecipient([l], "0xa") == [l] && OfAmount([l], 5) == [l];
    assert Effect(other, "0xa") == 5 && Effect(self, "0xa") == 0;
    assert Net([other], "0xa") == 5;
    assert Net(ms, "0xa") == 5;
    assert ms[..0] == [];
    assert Without(ms, 0) == [other];
    assert [self][1..] == [];
    assert Net([self], "0xa") == 0;
  }

  /** A token that credits the recipient less than it logs is accepted only if other inflows make up the difference. */
  lemma ShortCreditNeedsTheGapFilled(ms: seq<Movement>, tx: TxHash, logs: seq<Log>, token: HexAddress,
                                     recipient: HexAddress, amount: nat, before: int, after: int, i: nat)
    requires Recorded(logs, token, ms, tx) && after - before == Net(ms, recipient)
    requires OnlyAt(MoveTest(tx, recipient, amount), ms, i) && !SameAddress(ms[i].from, recipient)
    ensures Verdict(before, after, amount, token, recipient, Some(logs)).ExactMatch? <==>
              Net(Without(ms, i), recipient) == amount - ms[i].credited
  {
    AcceptedExactlyWhen(ms, tx, logs, token, recipient, amount, before, after);
  }

  // ------------------------------------------------------------------ over a chain

  function Flatten(ledger: seq<seq<Movement>>): seq<Movement> {
    if ledger == [] then [] else ledger[0] + Flatten(ledger[1..])
  }

  /** Block by block, the balances the chain shows are those the ledger's movements make. */
  ghost predicate KeepsLedger(chain: Chain, token: HexAddress, holder: HexAddress, ledger: seq<seq<Movement>>) {
    && |ledger| == |chain.blocks|
    && forall b :: 0 < b < |chain.blocks| && BalanceAt(chain, token, holder, b).Some? ==>
         BalanceAt(chain, token, holder, b - 1).Some? &&
         BalanceAt(chain, token, holder, b).value ==
           BalanceAt(chain, token, holder, b - 1).value + Net(ledger[b], holder)
  }

  /** A transaction's transfers sit in its own block, and its logs are the record of them. */
  ghost predicate LogsKept(chain: Chain, token: HexAddress, ledger: seq<seq<Movement>>, tx: TxHash) {
    && tx in chain.receipts && chain.receipts[tx].block < |ledger|
    && Recorded(chain.receipts[tx].logs, token, ledger[chain.receipts[tx].block], tx)
    && forall b :: 0 <= b < |ledger| && b != chain.receipts[tx].block ==> TransfersOf(ledger[b], tx) == []
  }

  /** The movements of the blocks after `lo`, up to and including `hi`. */
  function Window(ledger: seq<seq<Movement>>, lo: nat, hi: nat): seq<Movement>
    requires lo <= hi < |ledger|
  {
    Flatten(ledger[lo + 1..hi + 1])
  }

  lemma {:induction false} FlattenSplits(xs: seq<seq<Movement>>, ys: seq<seq<Movement>>)
    ensures Flatten(xs + ys) == Flatten(xs) + Flatten(ys)
  {
    if xs == [] {
      assert xs + ys == ys;
    } else {
      assert (xs + ys)[1..] == xs[1..] + ys;
      FlattenSplits(xs[1..], ys);
    }
  }

  lemma WindowGrows(ledger: seq<seq<Movement>>, lo: nat, hi: nat)
    requires lo < hi < |ledger|
    ensures Window(ledger, lo, hi) == Window(ledger, lo, hi - 1) + ledger[hi]
  {
    assert ledger[lo + 1..hi + 1] == ledger[lo + 1..hi] + [ledger[hi]];
    FlattenSplits(ledger[lo + 1..hi], [ledger[hi]]);
    assert Flatten([ledger[hi]]) == ledger[hi] + Flatten([]);
  }

  /** The difference of two balance reads is the net of the movements between them. */
  lemma {:induction false} BalanceIsLedger(chain: Chain, token: HexAddress, holder: HexAddress,
                                           ledger: seq<seq<Movement>>, lo: nat, hi: nat)
    requires KeepsLedger(chain, token, holder, ledger) && lo <= hi && BalanceAt(chain, token, holder, hi).Some?
    ensures hi < |ledger| && BalanceAt(chain, token, holder, lo).Some?
    ensures BalanceAt(chain, token, holder, hi).value - BalanceAt(chain, token, holder, lo).value ==
              Net(Window(ledger, lo, hi), holder)
  {
    if lo < hi {
      BalanceIsLedger(chain, token, holder, ledger, lo, hi - 1);
      WindowGrows(ledger, lo, hi);
      NetSplits(Window(ledger, lo, hi - 1), ledger[hi], holder);
    } else {
      assert ledger[lo + 1..hi + 1] == [];
    }
  }

  lemma {:induction false} TransfersSplit(xs: seq<Movement>, ys: seq<Movement>, tx: TxHash)
    ensures TransfersOf(xs + ys, tx) == TransfersOf(xs, tx) + TransfersOf(ys, tx)
  {
    if xs == [] {
      assert xs + ys == ys;
    } else {
      assert (xs + ys)[1..] == xs[1..] + ys;
      TransfersSplit(xs[1..], ys, tx);
    }
  }

  lemma {:induction false} TransfersInWindow(ledger: seq<seq<Movement>>, tx: TxHash, at: nat, lo: nat, hi: nat)
    requires lo <= hi < |ledger| && at < |ledger|
    requires forall b :: 0 <= b < |ledger| && b != at ==> TransfersOf(ledger[b], tx) == []
    ensures TransfersOf(Window(ledger, lo, hi), tx) == if lo < at <= hi then TransfersOf(ledger[at], tx) else []
  {
    if lo < hi {
      TransfersInWindow(ledger, tx, at, lo, hi - 1);
      WindowGrows(ledger, lo, hi);
      TransfersSplit(Window(ledger, lo, hi - 1), ledger[hi], tx);
    } else {
      assert ledger[lo + 1..hi + 1] == [];
    }
  }

  /**
   * Two pinned balance reads and the receipt of a transaction between them: the verdict is a statement about the
   * ledger of the blocks after the first read, up to the second.
   */
  lemma VerdictOnChain(chain: Chain, token: HexAddress, recipient: HexAddress, amount: nat, ledger: seq<seq<Movement>>,
                       tx: TxHash, pre: nat, post: nat)
    requires KeepsLedger(chain, token, recipient, ledger) && LogsKept(chain, token, ledger, tx)
    requires pre < chain.receipts[tx].block <= post && BalanceAt(chain, token, recipient, post).Some?
    ensures post < |ledger| && BalanceAt(chain, token, recipient, pre).Some?
    ensures var ms := Window(ledger, pre, post);
            Verdict(BalanceAt(chain, token, recipient, pre).value, BalanceAt(chain, token, recipient, post).value,
                    amount,
                    token, recipient, Some(chain.receipts[tx].logs)).ExactMatch? <==>
              exists i :: OnlyAt(MoveTest(tx, recipient, amount), ms, i) &&
                          Net(Without(ms, i), recipient) + Effect(ms[i], recipient) == amount
  {
    hide BalanceAt, Verdict;
    BalanceIsLedger(chain, token, recipient, ledger, pre, post);
    TransfersInWindow(ledger, tx, chain.receipts[tx].block, pre, post);
    AcceptedExactlyWhen(Window(ledger, pre, post), tx, chain.receipts[tx].logs, token, recipient, amount,
                        BalanceAt(chain, token, recipient, pre).value, BalanceAt(chain, token, recipient, post).value);
  }
}
