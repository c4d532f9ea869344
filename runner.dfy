/**
 * The App component's operation runner: the action log (`logAction`), the
 * busy-flag bracket around an operation (`handleTransaction`), the minimum
 * spinner time (`showSpinnerFor`) and the filtered-history state.
 */
module Runner {
  import opened Common
  import opened Decimal
  import History

  /** How an awaited operation settles. */
  datatype Outcome = Resolved | Rejected(message: string)

  /** The state setters handed to `handleTransaction` as `setLoadingState`. */
  datatype BusyFlag = Loading | Minting | CheckingBalance | TogglingPause

  /** One call of a busy-flag setter, in the order the calls happen. */
  datatype FlagWrite = FlagWrite(flag: BusyFlag, value: bool)

  const DurationLabel: string := " Duration: "
  const DurationUnit: string := ".00 ms."

  /**
   * `durationMessage`: nothing for a zero (or null) duration, which JavaScript
   * treats as false; otherwise the duration with `toFixed(2)`, exact for a
   * whole number of milliseconds.
   */
  function DurationSuffix(durationMs: nat): string
  {
    if durationMs == 0 then "" else DurationLabel + NatToString(durationMs) + DurationUnit
  }

  /** A log line: the timestamp, ": ", the message, then the duration suffix. */
  function LogEntry(timestamp: string, message: string, durationMs: nat): string
  {
    timestamp + ": " + message + DurationSuffix(durationMs)
  }

  /** The text `handleTransaction` logs and shows for an outcome. */
  function TransactionMessage(outcome: Outcome, successMessage: string, errorMessage: string): string
  {
    match outcome
    case Resolved => successMessage
    case Rejected(m) => errorMessage + ": " + m
  }

  function TransactionNotice(outcome: Outcome, successMessage: string, errorMessage: string): Notice
  {
    Notice(if outcome.Resolved? then Success else Error, TransactionMessage(outcome, successMessage, errorMessage))
  }

  /** The duration can be read back from a log entry's suffix, and is shown exactly when it is non-zero. */
  lemma DurationSuffixRoundTrip(durationMs: nat)
    ensures DurationSuffix(durationMs) == [] <==> durationMs == 0
    ensures durationMs != 0 ==>
      var s := DurationSuffix(durationMs);
      |s| > |DurationLabel| + |DurationUnit|
      && s[..|DurationLabel|] == DurationLabel
      && s[|s| - |DurationUnit|..] == DurationUnit
      && ParseDigits(s[|DurationLabel|..|s| - |DurationUnit|]) == durationMs
  {
    if durationMs != 0 {
      var s := DurationSuffix(durationMs);
      assert s[|DurationLabel|..|s| - |DurationUnit|] == NatToString(durationMs);
      ParseNatToString(durationMs);
    }
  }

  const DefaultMinTime: int := 500

  /** What the `finally` block of `showSpinnerFor` does with `loading`. */
  datatype ClearPlan = ClearNow | ClearAfter(delayMs: int)

  /** What is left of the floor after the elapsed time; a timer only when that is positive. */
  function SpinnerPlan(minTime: int, elapsedMs: int): ClearPlan
  {
    var remaining := minTime - elapsedMs;
    if remaining > 0 then ClearAfter(remaining) else ClearNow
  }

  function Delay(plan: ClearPlan): int
  {
    match plan
    case ClearNow => 0
    case ClearAfter(d) => d
  }

  function Max(a: int, b: int): int
  {
    if a < b then b else a
  }

  /**
   * The spinner clears at once exactly when the floor has already passed;
   * otherwise the timer waits a positive delay, and in both cases `loading`
   * stays on for max(elapsed, minTime) in all.
   */
  lemma SpinnerPlanMeaning(minTime: int, elapsedMs: int)
    ensures SpinnerPlan(minTime, elapsedMs) == ClearNow <==> elapsedMs >= minTime
    ensures Delay(SpinnerPlan(minTime, elapsedMs)) >= 0
    ensures SpinnerPlan(minTime, elapsedMs).ClearAfter? ==> SpinnerPlan(minTime, elapsedMs).delayMs > 0
    ensures elapsedMs + Delay(SpinnerPlan(minTime, elapsedMs)) == Max(elapsedMs, minTime)
  {
  }

  /** The App component's state that these operations touch. */
  class Dapp {
    var logs: seq<string>
    var notices: seq<Notice>
    var loading: bool
    var isMinting: bool
    var isCheckingBalance: bool
    var isTogglingPause: bool
    var flagWrites: seq<FlagWrite>
    /** Delays of the scheduled clears of `loading` whose timers have not fired. */
    var pendingClears: seq<int>
    var account: Option<string>
    var filteredHistory: seq<History.TransferRecord>

    function Busy(flag: BusyFlag): bool
      reads this
    {
      match flag
      case Loading => loading
      case Minting => isMinting
      case CheckingBalance => isCheckingBalance
      case TogglingPause => isTogglingPause
    }

    /** The initial values of the component's `useState` hooks. */
    constructor ()
      ensures logs == [] && notices == [] && flagWrites == [] && pendingClears == []
      ensures forall f :: !Busy(f)
      ensures account == None && filteredHistory == []
    {
      logs, notices, flagWrites, pendingClears := [], [], [], [];
      loading, isMinting, isCheckingBalance, isTogglingPause := false, false, false, false;
      account, filteredHistory := None, [];
    }

    /** A busy-flag setter: only that flag changes. */
    method SetBusy(flag: BusyFlag, value: bool)
      modifies this
      ensures Busy(flag) == value
      ensures forall f | f != flag :: Busy(f) == old(Busy(f))
      ensures flagWrites == old(flagWrites) + [FlagWrite(flag, value)]
      ensures logs == old(logs) && notices == old(notices) && pendingClears == old(pendingClears)
      ensures account == old(account) && filteredHistory == old(filteredHistory)
    {
      match flag {
        case Loading => loading := value;
        case Minting => isMinting := value;
        case CheckingBalance => isCheckingBalance := value;
        case TogglingPause => isTogglingPause := value;
      }
      flagWrites := flagWrites + [FlagWrite(flag, value)];
    }

    /**
     * `setAccount(accounts[0])` after the account list is fetched: the first
     * account, or none (`undefined`) when the list is empty; nothing else changes.
     */
    method SetAccount(accounts: seq<string>)
      modifies this
      ensures account == (if accounts == [] then None else Some(accounts[0]))
      ensures accounts != [] ==> account.Some? && account.value in accounts
      ensures logs == old(logs) && notices == old(notices) && pendingClears == old(pendingClears)
      ensures flagWrites == old(flagWrites) && forall f :: Busy(f) == old(Busy(f))
      ensures filteredHistory == old(filteredHistory)
    {
      account := if accounts == [] then None else Some(accounts[0]);
    }

    /** `logAction`: the new entry goes in front; the earlier entries stay, in order. */
    method LogAction(timestamp: string, message: string, durationMs: nat)
      modifies this
      ensures logs == [LogEntry(timestamp, message, durationMs)] + old(logs)
      ensures notices == old(notices) && flagWrites == old(flagWrites) && pendingClears == old(pendingClears)
      ensures forall f :: Busy(f) == old(Busy(f))
      ensures account == old(account) && filteredHistory == old(filteredHistory)
    {
      logs := [LogEntry(timestamp, message, durationMs)] + logs;
    }

    /**
     * `handleTransaction`: raises the flag, lets the operation settle, logs one
     * entry and raises one toast for the outcome, and always lowers the flag.
     * A rejection is absorbed here: the method returns normally either way.
     */
    method HandleTransaction(outcome: Outcome, flag: BusyFlag, successMessage: string, errorMessage: string,
                             timestamp: string, durationMs: nat)
      modifies this
      ensures logs == [LogEntry(timestamp, TransactionMessage(outcome, successMessage, errorMessage), durationMs)] + old(logs)
      ensures notices == old(notices) + [TransactionNotice(outcome, successMessage, errorMessage)]
      ensures flagWrites == old(flagWrites) + [FlagWrite(flag, true), FlagWrite(flag, false)]
      ensures !Busy(flag)
      ensures forall f | f != flag :: Busy(f) == old(Busy(f))
      ensures pendingClears == old(pendingClears)
      ensures account == old(account) && filteredHistory == old(filteredHistory)
    {
      SetBusy(flag, true);
      match outcome {
        case Resolved =>
          LogAction(timestamp, successMessage, durationMs);
          notices := notices + [Notice(Success, successMessage)];
        case Rejected(m) =>
          LogAction(timestamp, errorMessage + ": " + m, durationMs);
          notices := notices + [Notice(Error, errorMessage + ": " + m)];
      }
      SetBusy(flag, false);
    }

    /**
     * `showSpinnerFor`: sets `loading`, lets the operation settle (a rejection
     * is swallowed and changes nothing here), then clears `loading` at once or
     * schedules the clear after the rest of `minTime` (500 ms when not given).
     */
    method ShowSpinnerFor(outcome: Outcome, minTime: Option<int>, startMs: int, endMs: int)
      modifies this
      ensures var plan := SpinnerPlan(if minTime.Some? then minTime.value else DefaultMinTime, endMs - startMs);
        && loading == plan.ClearAfter?
        && flagWrites == old(flagWrites) + [FlagWrite(Loading, true)] + (if plan == ClearNow then [FlagWrite(Loading, false)] else [])
        && pendingClears == old(pendingClears) + (if plan == ClearNow then [] else [plan.delayMs])
      ensures forall f | f != Loading :: Busy(f) == old(Busy(f))
      ensures logs == old(logs) && notices == old(notices)
      ensures account == old(account) && filteredHistory == old(filteredHistory)
    {
      var floor := if minTime.Some? then minTime.value else DefaultMinTime;
      SetBusy(Loading, true);
      var elapsedTime := endMs - startMs;
      var remainingTime := floor - elapsedTime;
      if remainingTime > 0 {
        pendingClears := pendingClears + [remainingTime];
      } else {
        SetBusy(Loading, false);
      }
    }

    /** A scheduled clear fires: `loading` goes false and that timer is gone. */
    method FireScheduledClear(i: nat)
      requires i < |pendingClears|
      modifies this
      ensures !loading
      ensures pendingClears == old(pendingClears)[..i] + old(pendingClears)[i + 1..]
      ensures flagWrites == old(flagWrites) + [FlagWrite(Loading, false)]
      ensures forall f | f != Loading :: Busy(f) == old(Busy(f))
      ensures logs == old(logs) && notices == old(notices)
      ensures account == old(account) && filteredHistory == old(filteredHistory)
    {
      pendingClears := pendingClears[..i] + pendingClears[i + 1..];
      SetBusy(Loading, false);
    }

    /** `applyFilter` with its `setFilteredTransactionHistory`. */
    method ApplyFilter(transactions: seq<History.TransferRecord>, selected: string)
      modifies this
      ensures filteredHistory == History.ApplyFilter(transactions, selected, account)
      ensures logs == old(logs) && notices == old(notices) && flagWrites == old(flagWrites)
      ensures pendingClears == old(pendingClears) && account == old(account)
      ensures forall f :: Busy(f) == old(Busy(f))
    {
      filteredHistory := History.ApplyFilter(transactions, selected, account);
    }
  }
}
