/**
 * The balance check `transferTokens` makes before sending a transfer; amounts
 * are natural numbers in the token's base unit.
 */
module Transfer {
  import opened Runner

  const InsufficientBalance: string := "Insufficient token balance."
  const TransferErrorPrefix: string := "Error transferring tokens:"

  /** How the `balanceOf(account)` read settled: rejected with a message, or the sender's balance. */
  datatype BalanceRead = ReadFailed(message: string) | ReadBalance(balance: nat)

  /** What the transfer operation did: how it settled, whether the send was issued, whether history was refetched. */
  datatype TransferStep = TransferStep(outcome: Outcome, sendIssued: bool, historyRefetched: bool)

  /**
   * The operation `transferTokens` hands to `handleTransaction`: a rejected
   * balance read rejects the operation; a balance below the amount throws;
   * otherwise send (which may itself reject) and, once the send resolves,
   * refetch the history.
   */
  function TransferOperation(read: BalanceRead, amount: nat, send: Outcome): TransferStep
  {
    match read
    case ReadFailed(m) => TransferStep(Rejected(m), false, false)
    case ReadBalance(senderBalance) =>
      if senderBalance < amount then TransferStep(Rejected(InsufficientBalance), false, false)
      else TransferStep(send, true, send.Resolved?)
  }

  /**
   * The send is issued exactly when the balance was read and covers the
   * amount; the history is refetched only after a send that resolved.
   */
  lemma SendIssuedIffCovered(read: BalanceRead, amount: nat, send: Outcome)
    ensures TransferOperation(read, amount, send).sendIssued <==> read.ReadBalance? && amount <= read.balance
    ensures TransferOperation(read, amount, send).historyRefetched
      <==> TransferOperation(read, amount, send).sendIssued && send.Resolved?
  {
  }

  /**
   * An uncovered transfer fails with the insufficient-balance error and, run
   * by `handleTransaction`, leaves a log text made of the error prefix and
   * that message.
   */
  lemma InsufficientBalanceLogged(senderBalance: nat, amount: nat, send: Outcome, successMessage: string)
    requires senderBalance < amount
    ensures TransferOperation(ReadBalance(senderBalance), amount, send).outcome == Rejected(InsufficientBalance)
    ensures TransactionMessage(TransferOperation(ReadBalance(senderBalance), amount, send).outcome, successMessage, TransferErrorPrefix)
      == TransferErrorPrefix + ": " + InsufficientBalance
  {
  }

  /**
   * A rejected balance read rejects the operation with the read's own
   * message: nothing is sent, and the log text is the error prefix, ": "
   * and that message.
   */
  lemma BalanceReadFailureLogged(m: string, amount: nat, send: Outcome, successMessage: string)
    ensures TransferOperation(ReadFailed(m), amount, send) == TransferStep(Rejected(m), false, false)
    ensures TransactionMessage(TransferOperation(ReadFailed(m), amount, send).outcome, successMessage, TransferErrorPrefix)
      == TransferErrorPrefix + ": " + m
  {
  }
}
