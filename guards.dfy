/**
 * The guard pipeline: `withNetworkCheck`, `withPauseCheck` and their
 * composition `withChecks`. Every probe the guards make on the ledger gateway
 * or the wallet is an input (an `Environment`); what a guarded call does is
 * the requests it issues, the toasts it raises, and whether the wrapped
 * operation runs.
 */
module Guards {
  import opened Common
  import opened Networks

  /** The answers the gateway and the wallet give while one guarded call runs. */
  datatype Environment = Environment(
    listening: Probe<bool>,   // `web3.eth.net.isListening()`
    chainId: Probe<int>,      // `web3.eth.getChainId()`, parsed to an integer
    hasWallet: bool,          // `window.ethereum` is present
    switchAccepted: bool,     // the wallet grants `wallet_switchEthereumChain`
    paused: Probe<bool>)      // `contract.methods.paused().call()`

  /** A request sent to the gateway or the wallet. */
  datatype Request = IsListening | GetChainId | PausedCall | SwitchChain(chainId: string)

  /** An operation as the guards wrap it; the innermost `Bare` is the operation itself. */
  datatype Wrapped = Bare | NetworkChecked(inner: Wrapped) | PauseChecked(inner: Wrapped)

  function WithNetworkCheck(w: Wrapped): Wrapped { NetworkChecked(w) }

  function WithPauseCheck(w: Wrapped): Wrapped { PauseChecked(w) }

  /** `withChecks`: the network check outside, the pause check inside. */
  function WithChecks(w: Wrapped): Wrapped { WithNetworkCheck(WithPauseCheck(w)) }

  /** The toasts the guards raise; `Text` and `Severity` give what the user sees. */
  datatype GuardToast =
    | ConnectedTo(chainId: int)
    | UnsupportedNetwork(chainId: int)
    | NoConnection
    | UnsupportedDetected
    | SwitchSucceeded
    | SwitchFailed
    | ContractIsPaused
  {
    function Severity(): Severity
    {
      if ConnectedTo? || SwitchSucceeded? then Success else Error
    }

    function Text(): string
    {
      match this
      case ConnectedTo(id) => "Connected to " + NetworkLabel(id)
      case UnsupportedNetwork(id) => "Unsupported Network: " + NetworkLabel(id)
      case NoConnection => "No connection to blockchain network."
      case UnsupportedDetected => "Unsupported network detected." + " Switching to a supported network..."
      case SwitchSucceeded => "Switched to a supported network."
      case SwitchFailed => "Failed to switch network." + " Please do it manually."
      case ContractIsPaused => "Contract is paused"
    }
  }

  /** The first and thirteenth characters of a toast's text, which tell the kinds apart. */
  function TextMarks(t: GuardToast): (char, char)
  {
    match t
    case ConnectedTo(_) => ('C', ' ')
    case UnsupportedNetwork(_) => ('U', 'N')
    case NoConnection => ('N', 'n')
    case UnsupportedDetected => ('U', 'n')
    case SwitchSucceeded => ('S', 'a')
    case SwitchFailed => ('F', 'i')
    case ContractIsPaused => ('C', 'p')
  }

  lemma TextHasMarks(t: GuardToast)
    ensures |t.Text()| > 12 && (t.Text()[0], t.Text()[12]) == TextMarks(t)
  {
    match t
    case ConnectedTo(id) =>
      var p := "Connected to ";
      assert t.Text() == p + NetworkLabel(id);
      assert t.Text()[0] == p[0] && t.Text()[12] == p[12];
    case UnsupportedNetwork(id) =>
      var p := "Unsupported Network: ";
      assert t.Text() == p + NetworkLabel(id);
      assert t.Text()[0] == p[0] && t.Text()[12] == p[12];
    case NoConnection =>
    case UnsupportedDetected =>
    case SwitchSucceeded =>
    case SwitchFailed =>
    case ContractIsPaused =>
  }

  /**
   * Keeping toasts as `GuardToast` values loses nothing: two toasts with the
   * same text are the same toast, so the toast texts can be read back.
   */
  lemma ToastTextInjective(t: GuardToast, u: GuardToast)
    requires t.Text() == u.Text()
    ensures t == u
  {
    TextHasMarks(t);
    TextHasMarks(u);
    if t.ConnectedTo? {
      assert t.Text()[13..] == NetworkLabel(t.chainId);
      assert u.Text()[13..] == NetworkLabel(u.chainId);
      NetworkLabelInjective(t.chainId, u.chainId);
    } else if t.UnsupportedNetwork? {
      assert t.Text()[21..] == NetworkLabel(t.chainId);
      assert u.Text()[21..] == NetworkLabel(u.chainId);
      NetworkLabelInjective(t.chainId, u.chainId);
    }
  }

  /** What a call observably does; `invoked` says whether control reached the operation. */
  datatype Trace = Trace(requests: seq<Request>, notices: seq<GuardToast>, invoked: bool)

  /** The chain the wallet is asked to switch to (Ethereum Mainnet). */
  const DefaultChainHex: string := "0x1"

  /** `checkNetworkConnection`: only a thrown error counts as no connection; the resolved value is ignored. */
  predicate Connected(env: Environment)
  {
    !env.listening.Threw?
  }

  /** `checkSupportedNetwork`: a thrown `getChainId` counts as unsupported. */
  predicate Supported(env: Environment)
  {
    env.chainId.Returned? && IsSupported(env.chainId.value)
  }

  /** `checkContractPause`: active only when `paused()` answers false; an error counts as paused. */
  predicate Active(env: Environment)
  {
    env.paused.Returned? && !env.paused.value
  }

  /** The toast `checkSupportedNetwork` raises itself (none when `getChainId` throws). */
  function SupportNotices(env: Environment): seq<GuardToast>
  {
    match env.chainId
    case Threw => []
    case Returned(id) =>
      if IsSupported(id) then [ConnectedTo(id)] else [UnsupportedNetwork(id)]
  }

  /** The switch request, made only when a wallet is present. */
  function SwitchRequests(env: Environment): seq<Request>
  {
    if env.hasWallet then [SwitchChain(DefaultChainHex)] else []
  }

  function SwitchNotices(env: Environment): seq<GuardToast>
  {
    if !env.hasWallet then []
    else if env.switchAccepted then [SwitchSucceeded]
    else [SwitchFailed]
  }

  /** The checks `withNetworkCheck` makes before it would call the operation. */
  function NetworkGate(env: Environment): Trace
  {
    if !Connected(env) then
      Trace([IsListening], [NoConnection], false)
    else if !Supported(env) then
      Trace([IsListening, GetChainId] + SwitchRequests(env),
            SupportNotices(env) + [UnsupportedDetected] + SwitchNotices(env), false)
    else
      Trace([IsListening, GetChainId], SupportNotices(env), true)
  }

  /** The check `withPauseCheck` makes before it would call the operation. */
  function PauseGate(env: Environment): Trace
  {
    if Active(env) then Trace([PausedCall], [], true)
    else Trace([PausedCall], [ContractIsPaused], false)
  }

  /** A gate followed by what runs behind it, when it lets the call through. */
  function Then(gate: Trace, behind: Trace): Trace
  {
    if gate.invoked then Trace(gate.requests + behind.requests, gate.notices + behind.notices, behind.invoked)
    else gate
  }

  /** What the two gates do for one environment; a call meets the same answers at every level. */
  datatype Gates = Gates(network: Trace, pause: Trace)

  function GatesOf(env: Environment): Gates
  {
    Gates(NetworkGate(env), PauseGate(env))
  }

  /** The observable effect of calling a wrapped operation, given what each gate does. */
  function RunWith(w: Wrapped, gates: Gates): Trace
  {
    match w
    case Bare => Trace([], [], true)
    case NetworkChecked(inner) => Then(gates.network, RunWith(inner, gates))
    case PauseChecked(inner) => Then(gates.pause, RunWith(inner, gates))
  }

  /** The observable effect of calling a wrapped operation. */
  function Run(w: Wrapped, env: Environment): Trace
  {
    RunWith(w, GatesOf(env))
  }

  // ---- The guards as an explicit ordered list (an independent reading of the nesting) ----

  datatype Guard = NetworkGuard | PauseGuard

  /** The guards in the order a call meets them, outermost first. */
  function GuardOrder(w: Wrapped): seq<Guard>
  {
    match w
    case Bare => []
    case NetworkChecked(inner) => [NetworkGuard] + GuardOrder(inner)
    case PauseChecked(inner) => [PauseGuard] + GuardOrder(inner)
  }

  function Gate(g: Guard, gates: Gates): Trace
  {
    match g
    case NetworkGuard => gates.network
    case PauseGuard => gates.pause
  }

  /** The notices of the guards in `gs`, each guard's toasts in turn. */
  function AllNotices(gs: seq<Guard>, gates: Gates): seq<GuardToast>
  {
    if gs == [] then [] else Gate(gs[0], gates).notices + AllNotices(gs[1..], gates)
  }

  function AllRequests(gs: seq<Guard>, gates: Gates): seq<Request>
  {
    if gs == [] then [] else Gate(gs[0], gates).requests + AllRequests(gs[1..], gates)
  }

  /** How many guards let the call through before the first one that blocks it. */
  function PassingPrefix(gs: seq<Guard>, gates: Gates): (n: nat)
    ensures n <= |gs|
    ensures forall i | 0 <= i < n :: Gate(gs[i], gates).invoked
    ensures n < |gs| ==> !Gate(gs[n], gates).invoked
  {
    if gs == [] || !Gate(gs[0], gates).invoked then 0 else 1 + PassingPrefix(gs[1..], gates)
  }

  /** The guards a call actually evaluates: all of them, or those up to and including the first that blocks. */
  function Reached(gs: seq<Guard>, gates: Gates): seq<Guard>
  {
    var n := PassingPrefix(gs, gates);
    if n == |gs| then gs else gs[..n + 1]
  }

  lemma ReachedCons(g: Guard, gs: seq<Guard>, gates: Gates)
    ensures Gate(g, gates).invoked ==> Reached([g] + gs, gates) == [g] + Reached(gs, gates)
    ensures !Gate(g, gates).invoked ==> Reached([g] + gs, gates) == [g]
  {
    assert ([g] + gs)[1..] == gs;
  }

  lemma AllOfCons(g: Guard, gs: seq<Guard>, gates: Gates)
    ensures AllNotices([g] + gs, gates) == Gate(g, gates).notices + AllNotices(gs, gates)
    ensures AllRequests([g] + gs, gates) == Gate(g, gates).requests + AllRequests(gs, gates)
  {
    assert ([g] + gs)[1..] == gs;
  }

  /** Every guard in `gs` lets the call through. */
  predicate AllPass(gs: seq<Guard>, gates: Gates)
  {
    forall i | 0 <= i < |gs| :: Gate(gs[i], gates).invoked
  }

  lemma AllPassCons(g: Guard, gs: seq<Guard>, gates: Gates)
    ensures AllPass([g] + gs, gates) <==> Gate(g, gates).invoked && AllPass(gs, gates)
  {
    if Gate(g, gates).invoked && AllPass(gs, gates) {
      forall i | 0 <= i < |[g] + gs| ensures Gate(([g] + gs)[i], gates).invoked {
        if i > 0 {
          assert ([g] + gs)[i] == gs[i - 1];
        }
      }
    }
    if AllPass([g] + gs, gates) {
      assert ([g] + gs)[0] == g;
      forall i | 0 <= i < |gs| ensures Gate(gs[i], gates).invoked {
        assert ([g] + gs)[i + 1] == gs[i];
      }
    }
  }

  /** A wrapped operation runs exactly when every one of its guards lets the call through. */
  lemma {:induction false} RunInvokedIffAllGuardsPass(w: Wrapped, gates: Gates)
    ensures RunWith(w, gates).invoked <==> AllPass(GuardOrder(w), gates)
  {
    match w
    case Bare =>
    case NetworkChecked(inner) =>
      RunInvokedIffAllGuardsPass(inner, gates);
      AllPassCons(NetworkGuard, GuardOrder(inner), gates);
    case PauseChecked(inner) =>
      RunInvokedIffAllGuardsPass(inner, gates);
      AllPassCons(PauseGuard, GuardOrder(inner), gates);
  }

  /** The requests and toasts of a call are those of the guards it reaches, outermost first. */
  lemma {:induction false} RunEffectsAreReachedGuards(w: Wrapped, gates: Gates)
    ensures RunWith(w, gates).notices == AllNotices(Reached(GuardOrder(w), gates), gates)
    ensures RunWith(w, gates).requests == AllRequests(Reached(GuardOrder(w), gates), gates)
  {
    match w
    case Bare =>
    case NetworkChecked(inner) =>
      RunEffectsAreReachedGuards(inner, gates);
      ReachedCons(NetworkGuard, GuardOrder(inner), gates);
      AllOfCons(NetworkGuard, Reached(GuardOrder(inner), gates), gates);
      AllOfCons(NetworkGuard, [], gates);
    case PauseChecked(inner) =>
      RunEffectsAreReachedGuards(inner, gates);
      ReachedCons(PauseGuard, GuardOrder(inner), gates);
      AllOfCons(PauseGuard, Reached(GuardOrder(inner), gates), gates);
      AllOfCons(PauseGuard, [], gates);
  }

  // ---- Properties of the network and pause checks ----

  /** With no connection: one toast, no further request, the operation never runs. */
  lemma NoConnectionBlocks(w: Wrapped, env: Environment)
    requires !Connected(env)
    ensures Run(WithNetworkCheck(w), env) == Trace([IsListening], [NoConnection], false)
  {
  }

  /**
   * On an unsupported chain the operation does not run in this call, whatever
   * the wallet answers; the switch is requested exactly when a wallet exists.
   */
  lemma UnsupportedBlocks(w: Wrapped, env: Environment)
    requires Connected(env) && !Supported(env)
    ensures !Run(WithNetworkCheck(w), env).invoked
    ensures Run(WithNetworkCheck(w), env).notices
      == SupportNotices(env) + [UnsupportedDetected] + SwitchNotices(env)
    ensures SwitchChain(DefaultChainHex) in Run(WithNetworkCheck(w), env).requests <==> env.hasWallet
  {
  }

  /** Connected to a supported chain, the network check adds its one toast and defers to what it wraps. */
  lemma SupportedPassesThrough(w: Wrapped, env: Environment)
    requires Connected(env) && Supported(env)
    ensures Run(WithNetworkCheck(w), env).invoked == Run(w, env).invoked
    ensures Run(WithNetworkCheck(w), env).notices
      == [ConnectedTo(env.chainId.value)] + Run(w, env).notices
  {
  }

  /** A failed `paused()` call blocks just as a paused contract does. */
  lemma PauseProbeErrorCountsAsPaused(w: Wrapped, env: Environment)
    ensures Run(WithPauseCheck(w), env.(paused := Threw)) == Run(WithPauseCheck(w), env.(paused := Returned(true)))
  {
  }

  /**
   * `withChecks`: the pause state is asked only after both network checks
   * pass, and the operation runs exactly when connected, supported and not
   * paused; a paused contract adds the "Contract is paused" toast.
   */
  lemma WithChecksOrder(env: Environment)
    ensures var t := Run(WithChecks(Bare), env);
      && (PausedCall in t.requests <==> Connected(env) && Supported(env))
      && (PausedCall in t.requests ==> t.requests == [IsListening, GetChainId, PausedCall])
      && (t.invoked <==> Connected(env) && Supported(env) && Active(env))
      && (Connected(env) && Supported(env) && !Active(env) ==>
            t.notices == SupportNotices(env) + [ContractIsPaused])
  {
    var gates := GatesOf(env);
    var behind := RunWith(PauseChecked(Bare), gates);
    assert behind == Then(PauseGate(env), Trace([], [], true));
    assert Run(WithChecks(Bare), env) == Then(NetworkGate(env), behind);
    assert PausedCall !in SwitchRequests(env);
  }

  /** The value `isListening` resolves to plays no part: only a thrown error blocks. */
  lemma ListeningValueIgnored(w: Wrapped, env: Environment, b: bool)
    requires env.listening.Returned?
    ensures Run(w, env.(listening := Returned(b))) == Run(w, env)
  {
    assert GatesOf(env.(listening := Returned(b))) == GatesOf(env);
  }

  /**
   * The guards as the front-end runs them: the requests issued, the toasts
   * raised and the arguments the wrapped operation was called with.
   */
  class GuardRunner<A, R> {
    var requests: seq<Request>
    var notices: seq<GuardToast>
    var calls: seq<A>

    constructor ()
      ensures requests == [] && notices == [] && calls == []
    {
      requests, notices, calls := [], [], [];
    }

    method CheckNetworkConnection(env: Environment) returns (connected: bool)
      modifies this
      ensures connected == Connected(env)
      ensures requests == old(requests) + [IsListening]
      ensures notices == old(notices) && calls == old(calls)
    {
      requests := requests + [IsListening];
      connected := match env.listening { case Threw => false case Returned(_) => true };
    }

    method CheckSupportedNetwork(env: Environment) returns (supported: bool)
      modifies this
      ensures supported == Supported(env)
      ensures requests == old(requests) + [GetChainId]
      ensures notices == old(notices) + SupportNotices(env) && calls == old(calls)
    {
      requests := requests + [GetChainId];
      match env.chainId {
        case Threw =>
          supported := false;
        case Returned(id) =>
          if !IsSupported(id) {
            notices := notices + [UnsupportedNetwork(id)];
            supported := false;
          } else {
            notices := notices + [ConnectedTo(id)];
            supported := true;
          }
      }
    }

    method CheckContractPause(env: Environment) returns (active: bool)
      modifies this
      ensures active == Active(env)
      ensures requests == old(requests) + [PausedCall]
      ensures notices == old(notices) && calls == old(calls)
    {
      requests := requests + [PausedCall];
      active := match env.paused { case Threw => false case Returned(isPaused) => !isPaused };
    }

    /** The body of `withNetworkCheck` up to the point where it would call the operation. */
    method NetworkCheck(env: Environment) returns (pass: bool)
      modifies this
      ensures pass == NetworkGate(env).invoked
      ensures requests == old(requests) + NetworkGate(env).requests
      ensures notices == old(notices) + NetworkGate(env).notices
      ensures calls == old(calls)
    {
      var connected := CheckNetworkConnection(env);
      if !connected {
        notices := notices + [NoConnection];
        return false;
      }
      var supported := CheckSupportedNetwork(env);
      if !supported {
        notices := notices + [UnsupportedDetected];
        if env.hasWallet {
          requests := requests + [SwitchChain(DefaultChainHex)];
          if env.switchAccepted {
            notices := notices + [SwitchSucceeded];
          } else {
            notices := notices + [SwitchFailed];
          }
        }
        return false;
      }
      pass := true;
    }

    /** The body of `withPauseCheck` up to the point where it would call the operation. */
    method PauseCheck(env: Environment) returns (pass: bool)
      modifies this
      ensures pass == PauseGate(env).invoked
      ensures requests == old(requests) + PauseGate(env).requests
      ensures notices == old(notices) + PauseGate(env).notices
      ensures calls == old(calls)
    {
      var active := CheckContractPause(env);
      if !active {
        notices := notices + [ContractIsPaused];
      }
      pass := active;
    }

    /** Calls `w` with `args`; the result is `None` (`undefined`) when a guard blocks. */
    method Call(w: Wrapped, env: Environment, op: A -> R, args: A) returns (result: Option<R>)
      modifies this
      ensures var t := Run(w, env);
        && requests == old(requests) + t.requests
        && notices == old(notices) + t.notices
        && calls == old(calls) + (if t.invoked then [args] else [])
        && result == (if t.invoked then Some(op(args)) else None)
      decreases w
    {
      match w {
        case Bare =>
          calls := calls + [args];
          result := Some(op(args));
        case NetworkChecked(inner) =>
          assert Run(w, env) == Then(NetworkGate(env), Run(inner, env));
          var pass := NetworkCheck(env);
          if !pass {
            return None;
          }
          result := Call(inner, env, op, args);
        case PauseChecked(inner) =>
          assert Run(w, env) == Then(PauseGate(env), Run(inner, env));
          var pass := PauseCheck(env);
          if !pass {
            return None;
          }
          result := Call(inner, env, op, args);
      }
    }
  }
}
