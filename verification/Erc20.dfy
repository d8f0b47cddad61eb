/** The ERC-20 transfer adapter: what a transfer action promises and when a transaction is judged to have kept it. */
module Erc20 {
  import opened Bytes
  import opened Governor
  import opened Jobs
  import opened Text
  import opened Wrappers

  const TRANSFER_SIGNATURE := "transfer(address,uint256)"

  datatype Transfer = Transfer(recipient: HexAddress, amount: nat)

  /** Bravo stores the arguments without a selector: two 32-byte words, the address in the low 20 bytes of the first. */
  function TryDecodeTransfer(signature: string, calldata: seq<Byte>): Option<Transfer> {
    if signature != TRANSFER_SIGNATURE || |calldata| < 64 then None
    else Some(Transfer(Hex(calldata[12..32]), BigEndian(calldata[32..64])))
  }

  function SameAddress(a: HexAddress, b: HexAddress): bool {
    ToLower(a) == ToLower(b)
  }

  datatype TransferLog = TransferLog(logIndex: int, from: HexAddress, to: HexAddress, amount: nat)

  /** Whether a raw log is a well-formed Transfer of the token. */
  predicate IsTokenTransfer(log: Log, token: HexAddress) {
    SameAddress(log.address, token) && log.topicIsTransfer && log.transfer.Some?
  }

  function TransferLogOf(log: Log): TransferLog
    requires log.transfer.Some?
  {
    TransferLog(if log.logIndex.Some? then log.logIndex.value else -1,
                log.transfer.value.from, log.transfer.value.to, log.transfer.value.value)
  }

  /** The token's decodable Transfer logs among the first `n`, in order. */
  function TokenTransfers(logs: seq<Log>, token: HexAddress, n: nat): seq<TransferLog>
    requires n <= |logs|
  {
    if n == 0 then []
    else
      var front := TokenTransfers(logs, token, n - 1);
      if IsTokenTransfer(logs[n - 1], token) then front + [TransferLogOf(logs[n - 1])] else front
  }

  method DecodeTokenTransferLogs(logs: seq<Log>, token: HexAddress) returns (decoded: seq<TransferLog>)
    ensures decoded == TokenTransfers(logs, token, |logs|)
  {
    decoded := [];
    for i := 0 to |logs|
      invariant decoded == TokenTransfers(logs, token, i)
    {
      var log := logs[i];
      if !SameAddress(log.address, token) { continue; }
      if !log.topicIsTransfer { continue; }
      if log.transfer.None? { continue; }
      var index := if log.logIndex.Some? then log.logIndex.value else -1;
      decoded := decoded + [TransferLog(index, log.transfer.value.from, log.transfer.value.to,
                                        log.transfer.value.value)];
    }
  }

  function ToRecipient(logs: seq<TransferLog>, recipient: HexAddress): seq<TransferLog> {
    if logs == [] then []
    else (if SameAddress(logs[0].to, recipient) then [logs[0]] else []) + ToRecipient(logs[1..], recipient)
  }

  function OfAmount(logs: seq<TransferLog>, amount: nat): seq<TransferLog> {
    if logs == [] then []
    else (if logs[0].amount == amount then [logs[0]] else []) + OfAmount(logs[1..], amount)
  }

  datatype LogMatch =
    | Matched(log: TransferLog)
    | Missing
    | Mismatch(candidates: seq<TransferLog>)
    | Ambiguous(matches: seq<TransferLog>)

  function MatchTransferLog(candidates: seq<TransferLog>, recipient: HexAddress, amount: nat): LogMatch {
    var recipientMatches := ToRecipient(candidates, recipient);
    var fullMatches := OfAmount(recipientMatches, amount);
    if |fullMatches| == 1 then Matched(fullMatches[0])
    else if |fullMatches| > 1 then Ambiguous(fullMatches)
    else if |recipientMatches| > 0 then Mismatch(recipientMatches)
    else Missing
  }

  datatype Reason =
    | ExactMatch
    | BalanceDeltaMismatch
    | TransferLogMissing
    | TransferLogMismatch
    | AmbiguousTransferEvidence

  /** The adapter's verdict from a balance pair and the logs of the execution transaction, if one is known. */
  function Verdict(before: int, after: int, amount: nat, token: HexAddress, recipient: HexAddress,
                   logs: Option<seq<Log>>)
    : Reason
  {
    match logs
    case None => TransferLogMissing
    case Some(ls) =>
      match MatchTransferLog(TokenTransfers(ls, token, |ls|), recipient, amount)
      case Ambiguous(_) => AmbiguousTransferEvidence
      case Missing => TransferLogMissing
      case Mismatch(_) => TransferLogMismatch
      case Matched(_) => if after - before == amount then ExactMatch else BalanceDeltaMismatch
  }

  /** The adapter's `verify`, step by step over the reads it makes. */
  method Verify(before: int, after: int, amount: nat, token: HexAddress, recipient: HexAddress, logs: Option<seq<Log>>)
    returns (verified: bool, reason: Reason)
    ensures reason == Verdict(before, after, amount, token, recipient, logs)
    ensures verified <==> reason == ExactMatch
  {
    var balanceDeltaMatches := after - before == amount;
    var logReason: Option<Reason> := None;
    if logs.None? {
      logReason := Some(TransferLogMissing);
    } else {
      var candidates := DecodeTokenTransferLogs(logs.value, token);
      var found := MatchTransferLog(candidates, recipient, amount);
      if found.Matched? {
      } else if found.Ambiguous? {
        logReason := Some(AmbiguousTransferEvidence);
      } else if found.Mismatch? {
        logReason := Some(TransferLogMismatch);
      } else {
        logReason := Some(TransferLogMissing);
      }
    }
    reason := if logReason.Some? then logReason.value
              else if !balanceDeltaMatches then BalanceDeltaMismatch else ExactMatch;
    verified := reason == ExactMatch;
  }
}
