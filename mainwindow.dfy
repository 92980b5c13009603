/**
 * The connection bookkeeping of Brick Viewer's main window (`MainWindow`):
 * the auto-reconnect throttle run on every disconnect, the counters shown in
 * the status bar, the most-recently-used host list that a by-request connect
 * reorders, the authentication step, the lookup of a device's tab, and the
 * rule that decides whether a cached device info survives a new enumeration
 * and which kind of info a new device gets.
 *
 * The IP connection is not modelled: its answers (connection state, whether
 * authentication or enumeration raised) are parameters, and what the window
 * asks of it or of the UI is recorded, in order, in an effect log. The clock
 * `time.monotonic()` is a parameter `now`.
 */
module MainWindow {
  import opened Wrappers
  import opened PluginBase

  /** What the window asks of the connection and the UI, in order. */
  datatype Effect =
    | UpdateUi(forced: Option<ConnectionState>)   // update_ui_state(); None: ask the connection
    | ResetView                                   // drop all device tabs
    | OpenConnection(host: string)
    | CloseConnection
    | Authenticate(secret: string)
    | StartEnumerate
    | ErrorBox                                    // a critical message box

  datatype DisconnectReason = DisconnectRequest | DisconnectError | DisconnectShutdown

  datatype ConnectReason = ConnectRequest | ConnectAutoReconnect | ConnectOther

  /** One row of the host list (`config.HostInfo`). */
  datatype HostInfo = HostInfo(host: string, port: int, useAuthentication: bool, secret: string, rememberSecret: bool)

  /* ---------------------------------------------------------------------- */
  /* The auto-reconnect throttle                                            */
  /* ---------------------------------------------------------------------- */

  /** What cb_disconnected does after the counters. */
  datatype DisconnectAction =
    | Refresh   // by request, or auto-reconnect is off: only refresh the UI
    | GiveUp    // too many failures: stop reconnecting
    | Retry     // record the time and show the pending state

  /** Python's `s[-3:]`. */
  function LastThree(s: seq<real>): (r: seq<real>)
    ensures |r| == if |s| <= 3 then |s| else 3
    ensures r == s[|s| - |r|..]
  {
    if |s| <= 3 then s else s[|s| - 3..]
  }

  /**
   * cb_disconnected's decision: only an unexpected disconnect with
   * auto-reconnect on reconnects, and it gives up only with three failures
   * on record, the oldest of them less than a second after now.
   */
  function DisconnectActionOf(reason: DisconnectReason, autoReconnect: bool, times: seq<real>, now: real): (r: DisconnectAction)
    ensures r == Refresh <==> reason == DisconnectRequest || !autoReconnect
    ensures r == GiveUp ==> |times| >= 3 && times[|times| - 3] < now + 1.0
    ensures r == Retry ==> |times| < 3 || times[|times| - 3] >= now + 1.0
  {
    if reason == DisconnectRequest || !autoReconnect then Refresh
    else if |times| >= 3 && times[|times| - 3] < now + 1.0 then GiveUp
    else Retry
  }

  /** The recorded disconnect times after cb_disconnected. */
  function TimesAfterDisconnect(action: DisconnectAction, times: seq<real>, now: real): (r: seq<real>)
    ensures action == Refresh ==> r == times
    ensures action == GiveUp ==> r == []
    ensures action == Retry ==> r == LastThree(times) + [now]
  {
    match action
    case Refresh => times
    case GiveUp => []
    case Retry => LastThree(times) + [now]
  }

  function DisconnectEffects(action: DisconnectAction): seq<Effect>
  {
    match action
    case Refresh => [UpdateUi(None)]
    case GiveUp => [UpdateUi(Some(Disconnected)), ResetView, ErrorBox]
    case Retry => [UpdateUi(Some(Pending))]
  }

  /** The list of disconnect times never holds more than four entries. */
  lemma DisconnectTimesBounded(reason: DisconnectReason, autoReconnect: bool, times: seq<real>, now: real)
    requires |times| <= 4
    ensures |TimesAfterDisconnect(DisconnectActionOf(reason, autoReconnect, times, now), times, now)| <= 4
  {
  }

  /** Every recorded time is at most `now`: the clock is monotonic. */
  predicate NotAfter(times: seq<real>, now: real)
  {
    forall i :: 0 <= i < |times| ==> times[i] <= now
  }

  /**
   * With a monotonic clock the guard's comparison with `now + 1` always
   * holds, so giving up depends only on the number of recorded failures:
   * an unexpected disconnect with auto-reconnect on gives up exactly when
   * three failures are on record.
   */
  lemma GiveUpDependsOnlyOnCount(reason: DisconnectReason, autoReconnect: bool, times: seq<real>, now: real)
    requires NotAfter(times, now)
    ensures DisconnectActionOf(reason, autoReconnect, times, now) == GiveUp <==>
      (reason != DisconnectRequest && autoReconnect && |times| >= 3)
    ensures DisconnectActionOf(reason, autoReconnect, times, now) == Retry <==>
      (reason != DisconnectRequest && autoReconnect && |times| < 3)
  {
    if |times| >= 3 {
      assert times[|times| - 3] <= now;
    }
  }

  /**
   * With a monotonic clock, three failed attempts in a row (four unexpected
   * disconnects with auto-reconnect on) end auto-reconnecting: the list grows
   * by one per failure, and the fourth failure finds three entries.
   */
  lemma {:induction false} FourthFailureGivesUp(times: seq<real>, stamps: seq<real>)
    requires |times| == 0 && |stamps| == 3
    requires forall i, j :: 0 <= i < j < |stamps| ==> stamps[i] <= stamps[j]
    ensures var t1 := TimesAfterDisconnect(Retry, times, stamps[0]);
            var t2 := TimesAfterDisconnect(Retry, t1, stamps[1]);
            var t3 := TimesAfterDisconnect(Retry, t2, stamps[2]);
            DisconnectActionOf(DisconnectError, true, t1, stamps[1]) == Retry &&
            DisconnectActionOf(DisconnectError, true, t2, stamps[2]) == Retry &&
            |t3| == 3 &&
            forall now :: stamps[2] <= now ==>
              DisconnectActionOf(DisconnectError, true, t3, now) == GiveUp &&
              TimesAfterDisconnect(GiveUp, t3, now) == []
  {
    var t1 := TimesAfterDisconnect(Retry, times, stamps[0]);
    var t2 := TimesAfterDisconnect(Retry, t1, stamps[1]);
    var t3 := TimesAfterDisconnect(Retry, t2, stamps[2]);
    assert t1 == [stamps[0]];
    assert t2 == [stamps[0], stamps[1]];
    assert t3 == [stamps[0], stamps[1], stamps[2]];
    forall now | stamps[2] <= now
      ensures DisconnectActionOf(DisconnectError, true, t3, now) == GiveUp &&
              TimesAfterDisconnect(GiveUp, t3, now) == []
    {
      assert t3[0] <= now;
    }
  }

  /* ---------------------------------------------------------------------- */
  /* Authentication                                                         */
  /* ---------------------------------------------------------------------- */

  datatype AuthResult =
    | Skipped          // the authentication checkbox is off
    | RejectedSecret   // the secret has a non-ASCII character
    | AuthFailed       // the connection's authenticate raised
    | Authenticated

  /** `secret.encode('ascii')` succeeds. */
  predicate IsAscii(s: string)
  {
    forall i :: 0 <= i < |s| ==> s[i] as int < 128
  }

  function AuthResultOf(checked: bool, secret: string, authenticates: bool): AuthResult
  {
    if !checked then Skipped
    else if !IsAscii(secret) then RejectedSecret
    else if !authenticates then AuthFailed
    else Authenticated
  }

  /** do_authenticate's answer. */
  predicate Passes(r: AuthResult)
  {
    r == Skipped || r == Authenticated
  }

  /** The connection's auto-reconnect flag after do_authenticate. */
  function AutoReconnectAfterAuth(r: AuthResult, before: bool): bool
  {
    match r
    case Skipped => before
    case RejectedSecret => before
    case AuthFailed => false
    case Authenticated => true
  }

  function DisconnectSteps(): seq<Effect> { [ResetView, CloseConnection] }

  function AuthEffects(r: AuthResult, secret: string): seq<Effect>
  {
    match r
    case Skipped => []
    case RejectedSecret => DisconnectSteps() + [ErrorBox]
    case AuthFailed => [Authenticate(secret)] + DisconnectSteps() + [ErrorBox]
    case Authenticated => [Authenticate(secret)]
  }

  /**
   * do_authenticate passes exactly when authentication is off, or the secret
   * is ASCII and accepted; when it checks a secret it leaves auto-reconnect on
   * exactly when the secret was accepted, so an authentication error is never
   * retried automatically; and a failure always closes the connection.
   */
  lemma AuthenticationRule(checked: bool, secret: string, authenticates: bool, before: bool)
    ensures var r := AuthResultOf(checked, secret, authenticates);
            (Passes(r) <==> (!checked || (IsAscii(secret) && authenticates))) &&
            (checked && IsAscii(secret) ==> AutoReconnectAfterAuth(r, before) == Passes(r)) &&
            (!Passes(r) ==> CloseConnection in AuthEffects(r, secret) && ErrorBox in AuthEffects(r, secret)) &&
            (Passes(r) ==> CloseConnection !in AuthEffects(r, secret))
  {
    var r := AuthResultOf(checked, secret, authenticates);
    if !Passes(r) {
      assert AuthEffects(r, secret)[|AuthEffects(r, secret)| - 2] == CloseConnection;
    }
  }

  function EnumerateEffects(enumerates: bool): seq<Effect>
  {
    [StartEnumerate] + (if enumerates then [] else [UpdateUi(None)])
  }

  /* ---------------------------------------------------------------------- */
  /* The most-recently-used host list                                       */
  /* ---------------------------------------------------------------------- */

  /** `QComboBox.findText`: the first index holding `x`, or -1. */
  function IndexOf(s: seq<string>, x: string): (r: int)
    ensures -1 <= r < |s|
    ensures r == -1 <==> x !in s
    ensures r >= 0 ==> s[r] == x && forall j :: 0 <= j < r ==> s[j] != x
    decreases |s|
  {
    if |s| == 0 then -1
    else if s[0] == x then 0
    else
      var k := IndexOf(s[1..], x);
      if k == -1 then -1 else k + 1
  }

  function RemoveAt<T>(s: seq<T>, i: nat): (r: seq<T>)
    requires i < |s|
    ensures |r| == |s| - 1
  {
    s[..i] + s[i + 1..]
  }

  /** The element at `k` first, then the others in their order. */
  function MoveToFront<T>(s: seq<T>, k: nat): seq<T>
    requires k < |s|
  {
    [s[k]] + RemoveAt(s, k)
  }

  lemma MoveToFrontKeepsOrder<T>(s: seq<T>, k: nat)
    requires k < |s|
    ensures var p := MoveToFront(s, k);
            |p| == |s| && multiset(p) == multiset(s) && p[0] == s[k] &&
            (forall i :: 0 <= i < k ==> p[i + 1] == s[i]) &&
            (forall i :: k < i < |s| ==> p[i] == s[i])
  {
    assert s == s[..k] + ([s[k]] + s[k + 1..]);
  }

  /** Python's `s[i]`, which counts from the back for a negative `i`. */
  function PyAt<T>(s: seq<T>, i: int): T
    requires -|s| <= i < |s|
  {
    if i < 0 then s[|s| + i] else s[i]
  }

  /** The combo's entries are the hosts of the first rows of the host list. */
  predicate Parallel(hosts: seq<HostInfo>, combo: seq<string>)
  {
    combo <= HostNames(hosts)
  }

  function HostNames(hosts: seq<HostInfo>): seq<string>
  {
    seq(|hosts|, i requires 0 <= i < |hosts| => hosts[i].host)
  }

  /**
   * The host list after a by-request connect to `host`: a row the combo
   * already shows moves to the front; otherwise the row of the combo's
   * current entry is duplicated under the new host name and put in front.
   */
  function PromotedHosts(hosts: seq<HostInfo>, combo: seq<string>, current: int, host: string): (r: seq<HostInfo>)
    requires |combo| <= |hosts| && -|hosts| <= current < |hosts|
    ensures var k := IndexOf(combo, host);
            |r| == (if k >= 0 then |hosts| else |hosts| + 1) &&
            r[0] == if k >= 0 then hosts[k] else PyAt(hosts, current).(host := host)
  {
    var k := IndexOf(combo, host);
    if k >= 0 then MoveToFront(hosts, k)
    else [PyAt(hosts, current).(host := host)] + hosts
  }

  /** The combo after a by-request connect to `host`, before trimming. */
  function PromotedCombo(combo: seq<string>, host: string): (r: seq<string>)
    ensures |r| >= 1 && r[0] == host
    ensures |combo| <= |r| <= |combo| + 1
  {
    var k := IndexOf(combo, host);
    if k >= 0 then [host] + RemoveAt(combo, k)
    else [host] + combo
  }

  /** A host the combo already shows keeps the entry count; a new one adds an entry. */
  lemma PromotedComboLength(combo: seq<string>, host: string)
    ensures |PromotedCombo(combo, host)| == if host in combo then |combo| else |combo| + 1
  {
  }

  /** The combo after the trimming loop: its first `n` entries. */
  function Trim(s: seq<string>, n: nat): (r: seq<string>)
  {
    if |s| <= n then s else s[..n]
  }

  predicate NoDuplicates(s: seq<string>)
  {
    forall i, j :: 0 <= i < j < |s| ==> s[i] != s[j]
  }

  /**
   * After a by-request connect the host just used heads both lists, and the
   * lists stay parallel.
   */
  lemma PromotionKeepsParallel(hosts: seq<HostInfo>, combo: seq<string>, current: int, host: string)
    requires Parallel(hosts, combo) && -|hosts| <= current < |hosts|
    ensures PromotedHosts(hosts, combo, current, host)[0].host == host
    ensures PromotedCombo(combo, host)[0] == host
    ensures Parallel(PromotedHosts(hosts, combo, current, host), PromotedCombo(combo, host))
  {
    var k := IndexOf(combo, host);
    if k >= 0 {
      var p := MoveToFront(hosts, k);
      var c := [host] + RemoveAt(combo, k);
      assert p == PromotedHosts(hosts, combo, current, host);
      assert c == PromotedCombo(combo, host);
      forall i | 0 <= i < |c|
        ensures c[i] == p[i].host
      {
        if i == 0 {
        } else if i - 1 < k {
          assert c[i] == combo[i - 1] && p[i] == hosts[i - 1];
        } else {
          assert c[i] == combo[i] && p[i] == hosts[i];
        }
      }
    } else {
      var p := [PyAt(hosts, current).(host := host)] + hosts;
      var c := [host] + combo;
      assert p == PromotedHosts(hosts, combo, current, host);
      assert c == PromotedCombo(combo, host);
      forall i | 0 <= i < |c|
        ensures c[i] == p[i].host
      {
        if i > 0 {
          assert c[i] == combo[i - 1] && p[i] == hosts[i - 1];
        }
      }
    }
  }

  /**
   * A host the combo already shows moves to the front of the host list; the
   * rows before it shift back by one, the rows after it stay, and no row is
   * lost or added.
   */
  lemma PromotionMovesKnownHost(hosts: seq<HostInfo>, combo: seq<string>, current: int, host: string)
    requires |combo| <= |hosts| && -|hosts| <= current < |hosts|
    requires host in combo
    ensures var p := PromotedHosts(hosts, combo, current, host);
            var k := IndexOf(combo, host);
            |p| == |hosts| && multiset(p) == multiset(hosts) && p[0] == hosts[k] &&
            (forall i :: 0 <= i < k ==> p[i + 1] == hosts[i]) &&
            (forall i :: k < i < |hosts| ==> p[i] == hosts[i])
  {
    MoveToFrontKeepsOrder(hosts, IndexOf(combo, host));
  }

  /**
   * A host the combo does not show gets a copy of the current entry's row,
   * renamed, in front of all the old rows.
   */
  lemma PromotionAddsNewHost(hosts: seq<HostInfo>, combo: seq<string>, current: int, host: string)
    requires Parallel(hosts, combo) && -|hosts| <= current < |hosts|
    requires host !in combo
    ensures var p := PromotedHosts(hosts, combo, current, host);
            |p| == |hosts| + 1 && p[1..] == hosts &&
            p[0] == PyAt(hosts, current).(host := host)
  {
  }

  /** A prefix of a combo parallel to the host list is parallel to it too. */
  lemma ParallelPrefix(hosts: seq<HostInfo>, combo: seq<string>, prefix: seq<string>)
    requires Parallel(hosts, combo) && prefix <= combo
    ensures Parallel(hosts, prefix)
  {
  }

  /** The host lists after a by-request connect satisfy the window's invariant. */
  lemma PromotedStateValid(hosts: seq<HostInfo>, combo: seq<string>, current: int, host: string, n: nat)
    requires Parallel(hosts, combo) && 1 <= |hosts| && -1 <= current < |combo| && 1 <= n
    ensures var p := PromotedHosts(hosts, combo, current, host);
            var c := Trim(PromotedCombo(combo, host), n);
            1 <= |p| && Parallel(p, c) && 1 <= |c| <= n && c[0] == host && p[0].host == host
  {
    PromotionKeepsParallel(hosts, combo, current, host);
    TrimKeepsFront(PromotedCombo(combo, host), n);
    ParallelPrefix(PromotedHosts(hosts, combo, current, host), PromotedCombo(combo, host), Trim(PromotedCombo(combo, host), n));
  }

  /** Trimming keeps the first `n` entries and drops the rest. */
  lemma TrimKeepsFront(s: seq<string>, n: nat)
    ensures |Trim(s, n)| == if |s| <= n then |s| else n
    ensures Trim(s, n) <= s
    ensures n >= 1 && |s| >= 1 ==> |Trim(s, n)| >= 1 && Trim(s, n)[0] == s[0]
  {
  }

  /**
   * A combo without repeated hosts keeps none after a connect: the host just
   * used appears once, at the front.
   */
  lemma PromotionKeepsHostsDistinct(combo: seq<string>, host: string, n: nat)
    requires NoDuplicates(combo)
    ensures NoDuplicates(Trim(PromotedCombo(combo, host), n))
    ensures n >= 1 ==> Trim(PromotedCombo(combo, host), n)[0] == host
  {
    var k := IndexOf(combo, host);
    var rest := if k >= 0 then RemoveAt(combo, k) else combo;
    assert forall i :: 0 <= i < |rest| ==> rest[i] != host by {
      forall i | 0 <= i < |rest|
        ensures rest[i] != host
      {
        if k >= 0 {
          if i < k {
            assert rest[i] == combo[i];
          } else {
            assert rest[i] == combo[i + 1];
          }
        } else {
          assert rest[i] in combo;
        }
      }
    }
    assert NoDuplicates(rest) by {
      forall i, j | 0 <= i < j < |rest|
        ensures rest[i] != rest[j]
      {
        if k >= 0 {
          var i' := if i < k then i else i + 1;
          var j' := if j < k then j else j + 1;
          assert rest[i] == combo[i'] && rest[j] == combo[j'];
        }
      }
    }
    var c := PromotedCombo(combo, host);
    assert c == [host] + rest;
    assert NoDuplicates(c);
  }

  /**
   * cb_connected's host bookkeeping on a by-request connect to `host`: the
   * combo's row for it moves to the front, or a renamed copy of the current
   * row is put in front; the host heads the combo, which is then trimmed to
   * `n` entries. The lists stay parallel and both start with the host.
   */
  method Promote(hosts: seq<HostInfo>, combo: seq<string>, current: int, host: string, n: nat)
    returns (newHosts: seq<HostInfo>, newCombo: seq<string>)
    requires Parallel(hosts, combo) && 1 <= |hosts| && -1 <= current < |combo| && 1 <= n
    ensures newHosts == PromotedHosts(hosts, combo, current, host)
    ensures newCombo == Trim(PromotedCombo(combo, host), n)
    ensures 1 <= |newHosts| && Parallel(newHosts, newCombo) && 1 <= |newCombo| <= n
    ensures newCombo[0] == host && newHosts[0].host == host
  {
    PromotedStateValid(hosts, combo, current, host, n);
    var index := IndexOf(combo, host);
    var rest;
    if index >= 0 {
      rest := RemoveAt(combo, index);
      newHosts := MoveToFront(hosts, index);
    } else {
      rest := combo;
      newHosts := [PyAt(hosts, current).(host := host)] + hosts;
    }
    assert [host] + rest == PromotedCombo(combo, host);
    newCombo := TrimTail([host] + rest, n);
  }

  /** The loop removing the combo's last entry while it holds more than `n`. */
  method TrimTail(combo: seq<string>, n: nat) returns (r: seq<string>)
    ensures r == Trim(combo, n)
  {
    r := combo;
    while |r| > n
      invariant r <= combo
      invariant |r| >= if |combo| <= n then |combo| else n
      decreases |r|
    {
      r := r[..|r| - 1];
    }
  }

  /* ---------------------------------------------------------------------- */
  /* The window                                                             */
  /* ---------------------------------------------------------------------- */

  class Window {
    var disconnectTimes: seq<real>
    var autoReconnects: nat
    var redSessionLosts: nat
    /** The connection's auto-reconnect flag. */
    var autoReconnect: bool
    var hostInfos: seq<HostInfo>
    /** The entries of the host combo box. */
    var comboHosts: seq<string>
    /** The combo box's current index (-1 when none). */
    var currentIndex: int
    var lastHost: Option<string>
    var effects: seq<Effect>
    /** config.HOST_INFO_COUNT */
    const hostInfoCount: nat

    predicate Valid()
      reads this
    {
      |disconnectTimes| <= 4 &&
      1 <= hostInfoCount && |comboHosts| <= hostInfoCount &&
      1 <= |hostInfos| && Parallel(hostInfos, comboHosts) &&
      -1 <= currentIndex < |comboHosts|
    }

    /** The host list as loaded from the configuration fills the combo. */
    constructor(hosts: seq<HostInfo>, hostInfoCount: nat, autoReconnect: bool)
      requires 1 <= |hosts| <= hostInfoCount
      ensures Valid()
      ensures this.hostInfoCount == hostInfoCount && this.autoReconnect == autoReconnect
      ensures hostInfos == hosts && comboHosts == HostNames(hosts)
      ensures currentIndex == 0 && lastHost == None
      ensures disconnectTimes == [] && autoReconnects == 0 && redSessionLosts == 0 && effects == []
    {
      this.hostInfoCount := hostInfoCount;
      this.autoReconnect := autoReconnect;
      hostInfos := hosts;
      comboHosts := HostNames(hosts);
      currentIndex := 0;
      lastHost := None;
      disconnectTimes := [];
      autoReconnects := 0;
      redSessionLosts := 0;
      effects := [];
    }

    /** do_disconnect: reset the counters, drop the tabs and close the connection. */
    method DoDisconnect()
      requires Valid()
      modifies this`autoReconnects, this`redSessionLosts, this`effects
      ensures Valid()
      ensures autoReconnects == 0 && redSessionLosts == 0
      ensures effects == old(effects) + DisconnectSteps()
    {
      autoReconnects := 0;
      redSessionLosts := 0;
      effects := effects + [ResetView];
      effects := effects + [CloseConnection];
    }

    /**
     * connect_clicked: when disconnected, remember the combo's text as the
     * host and connect to it; otherwise disconnect.
     */
    method ConnectClicked(state: ConnectionState, currentText: string)
      requires Valid()
      modifies this`lastHost, this`autoReconnects, this`redSessionLosts, this`effects
      ensures Valid()
      ensures state == Disconnected ==>
        lastHost == Some(currentText) && effects == old(effects) + [OpenConnection(currentText)] &&
        autoReconnects == old(autoReconnects) && redSessionLosts == old(redSessionLosts)
      ensures state != Disconnected ==>
        lastHost == old(lastHost) && effects == old(effects) + DisconnectSteps() &&
        autoReconnects == 0 && redSessionLosts == 0
    {
      if state == Disconnected {
        lastHost := Some(currentText);
        effects := effects + [OpenConnection(currentText)];
      } else {
        DoDisconnect();
      }
    }

    /**
     * do_authenticate: with authentication on, refuse a non-ASCII secret,
     * otherwise authenticate with auto-reconnect off, turning it back on only
     * on success; every failure disconnects.
     */
    method DoAuthenticate(isAutoReconnect: bool, checked: bool, secret: string, authenticates: bool) returns (ok: bool)
      requires Valid()
      modifies this`autoReconnect, this`autoReconnects, this`redSessionLosts, this`effects
      ensures Valid()
      ensures var r := AuthResultOf(checked, secret, authenticates);
              ok == Passes(r) &&
              autoReconnect == AutoReconnectAfterAuth(r, old(autoReconnect)) &&
              effects == old(effects) + AuthEffects(r, secret) &&
              (ok ==> autoReconnects == old(autoReconnects) && redSessionLosts == old(redSessionLosts)) &&
              (!ok ==> autoReconnects == 0 && redSessionLosts == 0)
    {
      if !checked {
        return true;
      }
      if exists i :: 0 <= i < |secret| && secret[i] as int >= 128 {
        DoDisconnect();
        effects := effects + [ErrorBox];
        return false;
      }
      autoReconnect := false;
      effects := effects + [Authenticate(secret)];
      if !authenticates {
        DoDisconnect();
        effects := effects + [ErrorBox];
        return false;
      }
      autoReconnect := true;
      return true;
    }

    /**
     * cb_connected. A by-request connect resets both counters, turns
     * auto-reconnect on and promotes the host; an automatic reconnect counts
     * one more auto-reconnect. Both then authenticate and, if that passes,
     * enumerate (refreshing the UI if enumeration raises); any other reason
     * only enumerates.
     */
    method CbConnected(reason: ConnectReason, checked: bool, secret: string, authenticates: bool, enumerates: bool)
      requires Valid()
      requires reason == ConnectRequest ==> lastHost.Some?
      modifies this`hostInfos, this`comboHosts, this`currentIndex,
        this`autoReconnect, this`autoReconnects, this`redSessionLosts, this`effects
      ensures Valid()
      ensures disconnectTimes == old(disconnectTimes) && lastHost == old(lastHost)
      ensures var r := AuthResultOf(checked, secret, authenticates);
              reason == ConnectRequest ==>
                hostInfos == PromotedHosts(old(hostInfos), old(comboHosts), old(currentIndex), lastHost.value) &&
                comboHosts == Trim(PromotedCombo(old(comboHosts), lastHost.value), hostInfoCount) &&
                currentIndex == 0 &&
                autoReconnects == 0 && redSessionLosts == 0 &&
                autoReconnect == AutoReconnectAfterAuth(r, true) &&
                effects == old(effects) + [UpdateUi(None)] + AuthEffects(r, secret) +
                           (if Passes(r) then EnumerateEffects(enumerates) else [])
      ensures var r := AuthResultOf(checked, secret, authenticates);
              reason == ConnectAutoReconnect ==>
                hostInfos == old(hostInfos) && comboHosts == old(comboHosts) && currentIndex == old(currentIndex) &&
                autoReconnects == (if Passes(r) then old(autoReconnects) + 1 else 0) &&
                redSessionLosts == (if Passes(r) then old(redSessionLosts) else 0) &&
                autoReconnect == AutoReconnectAfterAuth(r, old(autoReconnect)) &&
                effects == old(effects) + [UpdateUi(None)] + AuthEffects(r, secret) +
                           (if Passes(r) then EnumerateEffects(enumerates) else [])
      ensures reason == ConnectOther ==>
                hostInfos == old(hostInfos) && comboHosts == old(comboHosts) && currentIndex == old(currentIndex) &&
                autoReconnects == old(autoReconnects) && redSessionLosts == old(redSessionLosts) &&
                autoReconnect == old(autoReconnect) &&
                effects == old(effects) + [UpdateUi(None)] + EnumerateEffects(enumerates)
    {
      effects := effects + [UpdateUi(None)];
      if reason == ConnectRequest {
        ConnectedByRequest(checked, secret, authenticates, enumerates);
      } else if reason == ConnectAutoReconnect {
        ConnectedByAutoReconnect(checked, secret, authenticates, enumerates);
      } else {
        EnumerateDevices(enumerates);
      }
    }

    /**
     * The request branch of cb_connected: both counters reset, auto-reconnect
     * on, the host promoted, then authentication and, if it passes, the
     * enumeration.
     */
    method ConnectedByRequest(checked: bool, secret: string, authenticates: bool, enumerates: bool)
      requires Valid() && lastHost.Some?
      modifies this`hostInfos, this`comboHosts, this`currentIndex,
        this`autoReconnect, this`autoReconnects, this`redSessionLosts, this`effects
      ensures Valid()
      ensures var r := AuthResultOf(checked, secret, authenticates);
              hostInfos == PromotedHosts(old(hostInfos), old(comboHosts), old(currentIndex), lastHost.value) &&
              comboHosts == Trim(PromotedCombo(old(comboHosts), lastHost.value), hostInfoCount) &&
              currentIndex == 0 &&
              autoReconnects == 0 && redSessionLosts == 0 &&
              autoReconnect == AutoReconnectAfterAuth(r, true) &&
              effects == old(effects) + AuthEffects(r, secret) + (if Passes(r) then EnumerateEffects(enumerates) else [])
    {
      autoReconnects := 0;
      redSessionLosts := 0;
      autoReconnect := true;
      var hosts, combo := Promote(hostInfos, comboHosts, currentIndex, lastHost.value, hostInfoCount);
      hostInfos, comboHosts, currentIndex := hosts, combo, 0;
      AuthenticateAndEnumerate(false, checked, secret, authenticates, enumerates);
    }

    /**
     * The auto-reconnect branch of cb_connected: one more auto-reconnect
     * counted, then authentication and, if it passes, the enumeration.
     */
    method ConnectedByAutoReconnect(checked: bool, secret: string, authenticates: bool, enumerates: bool)
      requires Valid()
      modifies this`autoReconnect, this`autoReconnects, this`redSessionLosts, this`effects
      ensures Valid()
      ensures var r := AuthResultOf(checked, secret, authenticates);
              autoReconnects == (if Passes(r) then old(autoReconnects) + 1 else 0) &&
              redSessionLosts == (if Passes(r) then old(redSessionLosts) else 0) &&
              autoReconnect == AutoReconnectAfterAuth(r, old(autoReconnect)) &&
              effects == old(effects) + AuthEffects(r, secret) + (if Passes(r) then EnumerateEffects(enumerates) else [])
    {
      autoReconnects := autoReconnects + 1;
      AuthenticateAndEnumerate(true, checked, secret, authenticates, enumerates);
    }

    /** do_authenticate and, if it passes, `ipcon.enumerate()`: the tail both branches share. */
    method AuthenticateAndEnumerate(isAutoReconnect: bool, checked: bool, secret: string, authenticates: bool, enumerates: bool)
      requires Valid()
      modifies this`autoReconnect, this`autoReconnects, this`redSessionLosts, this`effects
      ensures Valid()
      ensures var r := AuthResultOf(checked, secret, authenticates);
              autoReconnect == AutoReconnectAfterAuth(r, old(autoReconnect)) &&
              effects == old(effects) + AuthEffects(r, secret) + (if Passes(r) then EnumerateEffects(enumerates) else []) &&
              (Passes(r) ==> autoReconnects == old(autoReconnects) && redSessionLosts == old(redSessionLosts)) &&
              (!Passes(r) ==> autoReconnects == 0 && redSessionLosts == 0)
    {
      var ok := DoAuthenticate(isAutoReconnect, checked, secret, authenticates);
      if ok {
        EnumerateDevices(enumerates);
      }
    }

    /** `ipcon.enumerate()`, with a UI refresh when it raises. */
    method EnumerateDevices(enumerates: bool)
      modifies this`effects
      ensures effects == old(effects) + EnumerateEffects(enumerates)
    {
      effects := effects + [StartEnumerate];
      if !enumerates {
        effects := effects + [UpdateUi(None)];
      }
    }

    /**
     * cb_disconnected: a by-request disconnect resets both counters; then the
     * throttle either refreshes the UI, gives up auto-reconnecting after
     * repeated failures, or records the failure and shows the pending state.
     */
    method CbDisconnected(reason: DisconnectReason, now: real)
      requires Valid()
      modifies this`disconnectTimes, this`autoReconnect, this`autoReconnects, this`redSessionLosts, this`effects
      ensures Valid()
      ensures var action := DisconnectActionOf(reason, old(autoReconnect), old(disconnectTimes), now);
              disconnectTimes == TimesAfterDisconnect(action, old(disconnectTimes), now) &&
              autoReconnect == (old(autoReconnect) && action != GiveUp) &&
              effects == old(effects) + DisconnectEffects(action)
      ensures reason == DisconnectRequest ==> autoReconnects == 0 && redSessionLosts == 0
      ensures reason != DisconnectRequest ==>
        autoReconnects == old(autoReconnects) && redSessionLosts == old(redSessionLosts)
    {
      if reason == DisconnectRequest {
        autoReconnects := 0;
        redSessionLosts := 0;
      }
      if reason == DisconnectRequest || !autoReconnect {
        effects := effects + [UpdateUi(None)];
      } else if |disconnectTimes| >= 3 && disconnectTimes[|disconnectTimes| - 3] < now + 1.0 {
        disconnectTimes := [];
        autoReconnect := false;
        effects := effects + [UpdateUi(Some(Disconnected)), ResetView, ErrorBox];
      } else {
        disconnectTimes := LastThree(disconnectTimes) + [now];
        effects := effects + [UpdateUi(Some(Pending))];
      }
    }
  }

  /* ---------------------------------------------------------------------- */
  /* Tabs                                                                   */
  /* ---------------------------------------------------------------------- */

  /**
   * tab_for_uid: the first tab after the setup tab (index 0) whose device
   * info has `uid`, or -1. `tabs[i]` is the uid of tab i's device info, None
   * for a tab without one (its lookup raises and is skipped).
   */
  method TabForUid(tabs: seq<Option<string>>, uid: string) returns (index: int)
    ensures index == -1 || (1 <= index < |tabs| && tabs[index] == Some(uid))
    ensures index == -1 <==> forall j :: 1 <= j < |tabs| ==> tabs[j] != Some(uid)
    ensures index != -1 ==> forall j :: 1 <= j < index ==> tabs[j] != Some(uid)
  {
    var i := 1;
    while i < |tabs|
      invariant 1 <= i <= if |tabs| < 1 then 1 else |tabs|
      invariant forall j :: 1 <= j < i ==> tabs[j] != Some(uid)
    {
      if tabs[i] == Some(uid) {
        return i;
      }
      i := i + 1;
    }
    return -1;
  }

  /* ---------------------------------------------------------------------- */
  /* Enumeration: cached infos and classification                           */
  /* ---------------------------------------------------------------------- */

  datatype Version = Version(major: int, minor: int, release: int)

  /** The firmware version a fresh device info carries: not yet known. */
  const UNKNOWN_VERSION := Version(0, 0, 0)

  datatype EnumerationType = EnumAvailable | EnumConnected | EnumDisconnected

  /** The arguments of the enumerate callback. */
  datatype Enumeration = Enumeration(
    uid: string, connectedUid: string, position: string,
    hardwareVersion: Version, firmwareVersion: Version,
    deviceIdentifier: nat, enumerationType: EnumerationType)

  /** The kind of device info cb_enumerate creates for a new device. */
  datatype DeviceKind =
    | MasterBrickInfo | RedBrickInfo | HatBrickInfo | HatZeroBrickInfo
    | IsolatorBrickletInfo | TngInfo | BrickInfo | BrickletInfo

  /**
   * The device identifiers of the devices cb_enumerate names, and whether the
   * HAT plugins are available in this build.
   */
  datatype KnownDevices = KnownDevices(
    master: nat, red: nat, hat: nat, hatZero: nat, isolator: nat,
    hatSupported: bool, hatZeroSupported: bool)

  /** The part of a device info the enumeration logic reads and writes. */
  datatype CachedInfo = CachedInfo(
    kind: DeviceKind, uid: string, connectedUid: string, position: string,
    hardwareVersion: Version, firmwareInstalled: Version, deviceIdentifier: nat,
    enumerationType: Option<EnumerationType>)   // None until a first enumeration sets it

  function LowerChar(c: char): char
  {
    if 'A' <= c <= 'Z' then (c as int + 32) as char else c
  }

  /** `str.lower`, on ASCII letters: no upper-case letter is left, and every other character stays. */
  function Lower(s: string): (r: string)
    ensures |r| == |s|
    ensures forall i :: 0 <= i < |r| ==> !('A' <= r[i] <= 'Z')
    ensures forall i :: 0 <= i < |s| && !('A' <= s[i] <= 'Z') ==> r[i] == s[i]
  {
    seq(|s|, i requires 0 <= i < |s| => LowerChar(s[i]))
  }

  lemma LowerIdempotent(s: string)
    ensures Lower(Lower(s)) == Lower(s)
  {
  }

  function DigitChar(d: nat): (c: char)
    requires d < 10
    ensures '0' <= c <= '9' && (c == '0' <==> d == 0)
  {
    ('0' as int + d) as char
  }

  /** `str(n)` for a natural number. */
  function Decimal(n: nat): (s: string)
    ensures |s| >= 1 && (n >= 10 ==> |s| >= 2)
    ensures forall k :: 0 <= k < |s| ==> '0' <= s[k] <= '9'
    ensures s[0] == '0' <==> n == 0
    decreases n
  {
    if n < 10 then [DigitChar(n)] else Decimal(n / 10) + [DigitChar(n % 10)]
  }

  /** The two leading decimal digits of a number with at least two. */
  function LeadingTwo(n: nat): nat
    requires n >= 10
    decreases n
  {
    if n < 100 then n else LeadingTwo(n / 10)
  }

  /** `str(device_identifier).startswith('20')` */
  predicate IsTngIdentifier(did: nat)
  {
    "20" <= Decimal(did)
  }

  /** A decimal string starts with "20" exactly when the number's two leading digits are 2 and 0. */
  lemma {:induction false} TngIdentifierDigits(n: nat)
    ensures IsTngIdentifier(n) <==> (n >= 10 && LeadingTwo(n) == 20)
    decreases n
  {
    if n < 10 {
      assert |Decimal(n)| == 1;
    } else if n < 100 {
      var a, b := DigitChar(n / 10), DigitChar(n % 10);
      assert Decimal(n / 10) == [a];
      assert Decimal(n) == [a, b];
      var twenty: string := "20";
      assert |twenty| == 2 && twenty[0] == '2' && twenty[1] == '0';
      assert (twenty <= [a, b]) <==> (twenty == [a, b]);
      assert a == '2' <==> n / 10 == 2;
      assert b == '0' <==> n % 10 == 0;
    } else {
      var s := Decimal(n / 10);
      assert Decimal(n) == s + [DigitChar(n % 10)];
      assert |s| >= 2;
      assert ("20" <= Decimal(n)) <==> ("20" <= s);
      TngIdentifierDigits(n / 10);
    }
  }

  /** Python's `a <= b` on strings: lexicographic by code point, a prefix first. */
  predicate StrLe(a: string, b: string)
    decreases |a|
  {
    |a| == 0 || (|b| > 0 && (a[0] < b[0] || (a[0] == b[0] && StrLe(a[1..], b[1..]))))
  }

  /** `'0' <= position <= '9'` */
  predicate IsBrickPosition(position: string)
  {
    StrLe("0", position) && StrLe(position, "9")
  }

  /**
   * A position lies between "0" and "9" exactly when it starts with a digit
   * below 9, or is "9" itself: the ports of a stack are single digits.
   */
  lemma BrickPositionRule(position: string)
    ensures IsBrickPosition(position) <==>
      (|position| >= 1 && '0' <= position[0] && (position[0] < '9' || position == "9"))
  {
    if |position| >= 1 {
      assert StrLe("0", position) <==> '0' <= position[0];
      if position[0] == '9' {
        assert StrLe(position, "9") <==> StrLe(position[1..], "");
      }
    }
  }

  /** The info kind chosen for a device without a valid cached info. */
  function Classify(did: nat, position: string, known: KnownDevices): (r: DeviceKind)
    ensures r == MasterBrickInfo <==> did == known.master
    ensures IsNamedDevice(did, known) <==>
      r in {MasterBrickInfo, RedBrickInfo, HatBrickInfo, HatZeroBrickInfo, IsolatorBrickletInfo}
    ensures !IsNamedDevice(did, known) && IsTngIdentifier(did) ==> r == TngInfo
  {
    if did == known.master then MasterBrickInfo
    else if did == known.red then RedBrickInfo
    else if known.hatSupported && did == known.hat then HatBrickInfo
    else if known.hatZeroSupported && did == known.hatZero then HatZeroBrickInfo
    else if did == known.isolator then IsolatorBrickletInfo
    else if IsTngIdentifier(did) then TngInfo
    else if IsBrickPosition(position) then BrickInfo
    else BrickletInfo
  }

  predicate IsNamedDevice(did: nat, known: KnownDevices)
  {
    did == known.master || did == known.red || (known.hatSupported && did == known.hat) ||
    (known.hatZeroSupported && did == known.hatZero) || did == known.isolator
  }

  /**
   * An unnamed device is a TNG device when its identifier's leading digits
   * are 20, otherwise a Brick when it sits on a single-digit port and a
   * Bricklet when it does not.
   */
  lemma ClassifyUnnamed(did: nat, position: string, known: KnownDevices)
    requires !IsNamedDevice(did, known)
    ensures Classify(did, position, known) == TngInfo <==> (did >= 10 && LeadingTwo(did) == 20)
    ensures Classify(did, position, known) == BrickInfo <==>
      (!(did >= 10 && LeadingTwo(did) == 20) &&
       |position| >= 1 && '0' <= position[0] && (position[0] < '9' || position == "9"))
  {
    TngIdentifierDigits(did);
    BrickPositionRule(position);
  }

  /**
   * The cached info no longer describes the enumerated device: its parent,
   * port (ignoring case), hardware version or identifier differ, or its
   * firmware version is known, it is not a RED Brick, and it differs.
   */
  predicate CacheInvalid(info: CachedInfo, e: Enumeration, known: KnownDevices)
    ensures Describes(info, e) && info.firmwareInstalled == e.firmwareVersion ==> !CacheInvalid(info, e, known)
    ensures Describes(info, e) && info.deviceIdentifier == known.red ==> !CacheInvalid(info, e, known)
    ensures Describes(info, e) && info.firmwareInstalled == UNKNOWN_VERSION ==> !CacheInvalid(info, e, known)
    ensures !Describes(info, e) ==> CacheInvalid(info, e, known)
  {
    info.connectedUid != e.connectedUid ||
    Lower(info.position) != Lower(e.position) ||
    info.hardwareVersion != e.hardwareVersion ||
    info.deviceIdentifier != e.deviceIdentifier ||
    (info.firmwareInstalled != UNKNOWN_VERSION &&
     info.deviceIdentifier != known.red &&
     info.firmwareInstalled != e.firmwareVersion)
  }

  /**
   * The cached info names the enumerated device at the same place: same
   * parent, same port up to case, same hardware version and identifier.
   */
  predicate Describes(info: CachedInfo, e: Enumeration)
  {
    info.connectedUid == e.connectedUid && Lower(info.position) == Lower(e.position) &&
    info.hardwareVersion == e.hardwareVersion && info.deviceIdentifier == e.deviceIdentifier
  }

  /** The device info after an available/connected enumeration of its device. */
  function ApplyEnumeration(cached: Option<CachedInfo>, e: Enumeration, known: KnownDevices): (r: CachedInfo)
    ensures r.uid == e.uid && r.connectedUid == e.connectedUid && r.position == Lower(e.position)
    ensures r.hardwareVersion == e.hardwareVersion && r.deviceIdentifier == e.deviceIdentifier
    ensures e.deviceIdentifier != known.red ==> r.firmwareInstalled == e.firmwareVersion
    ensures r.enumerationType == Some(e.enumerationType)
  {
    var base :=
      if cached.None? || CacheInvalid(cached.value, e, known) then
        CachedInfo(Classify(e.deviceIdentifier, e.position, known), "", "", "", UNKNOWN_VERSION, UNKNOWN_VERSION, 0, None)
      else cached.value;
    base.(uid := e.uid, connectedUid := e.connectedUid, position := Lower(e.position),
          hardwareVersion := e.hardwareVersion,
          firmwareInstalled := if e.deviceIdentifier != known.red then e.firmwareVersion else base.firmwareInstalled,
          deviceIdentifier := e.deviceIdentifier, enumerationType := Some(e.enumerationType))
  }

  /**
   * The device inventory (uid to info) after cb_enumerate: callbacks that
   * arrive while not connected are ignored; a disconnected device's info is
   * removed; otherwise its info is refreshed, or replaced if invalid.
   */
  function Enumerate(inventory: map<string, CachedInfo>, state: ConnectionState, e: Enumeration, known: KnownDevices): (r: map<string, CachedInfo>)
    ensures state != Connected ==> r == inventory
    ensures forall u :: u != e.uid ==> (u in r <==> u in inventory)
    ensures forall u :: u != e.uid && u in r ==> r[u] == inventory[u]
    ensures state == Connected ==> (e.uid in r <==> e.enumerationType != EnumDisconnected)
  {
    if state != Connected then inventory
    else if e.enumerationType == EnumDisconnected then inventory - {e.uid}
    else
      var cached := if e.uid in inventory then Some(inventory[e.uid]) else None;
      inventory[e.uid := ApplyEnumeration(cached, e, known)]
  }

  /**
   * The invalidation test ignores the case of the port: two enumerations
   * that differ only in its case judge a cached info alike.
   */
  lemma InvalidationIgnoresPositionCase(info: CachedInfo, e: Enumeration, position: string, known: KnownDevices)
    requires Lower(position) == Lower(e.position)
    ensures CacheInvalid(info, e, known) == CacheInvalid(info, e.(position := position), known)
  {
  }

  /**
   * A cached info is kept (only its fields refreshed) exactly when it is still
   * valid; an invalid one is replaced by a fresh info of the classified kind.
   */
  lemma KeptIffValid(info: CachedInfo, e: Enumeration, known: KnownDevices)
    ensures ApplyEnumeration(Some(info), e, known).kind ==
      (if CacheInvalid(info, e, known) then Classify(e.deviceIdentifier, e.position, known) else info.kind)
    ensures !CacheInvalid(info, e, known) && e.deviceIdentifier == known.red ==>
      ApplyEnumeration(Some(info), e, known).firmwareInstalled == info.firmwareInstalled
  {
  }

  /**
   * Enumerating the same device twice is the same as once: the info written
   * by the first enumeration is valid for the second, so the device's plugin
   * is not recreated.
   */
  lemma ReenumerationKeepsInfo(cached: Option<CachedInfo>, e: Enumeration, known: KnownDevices)
    ensures !CacheInvalid(ApplyEnumeration(cached, e, known), e, known)
    ensures ApplyEnumeration(Some(ApplyEnumeration(cached, e, known)), e, known) == ApplyEnumeration(cached, e, known)
  {
    LowerIdempotent(e.position);
  }

  lemma EnumerateIdempotent(inventory: map<string, CachedInfo>, state: ConnectionState, e: Enumeration, known: KnownDevices)
    ensures Enumerate(Enumerate(inventory, state, e, known), state, e, known) == Enumerate(inventory, state, e, known)
  {
    if state == Connected && e.enumerationType != EnumDisconnected {
      var cached := if e.uid in inventory then Some(inventory[e.uid]) else None;
      ReenumerationKeepsInfo(cached, e, known);
    }
  }
}
