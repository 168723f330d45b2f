/**
 * `callGeminiWithFailover`, the API-key failover policy of both route files.
 *
 * The two copies differ only in the number of keys, the substrings that mark an
 * error as quota/overload class, and the message thrown when the last key is
 * exhausted; a `Policy` carries those three and one engine serves both.
 *
 * The generative backend is an oracle: the i-th call made (counting from 0
 * across restarts) gets `backend(i)`. Which keys have their environment
 * variable set is the sequence `configured`. Every call is recorded in the
 * trace with the reply it got, and every 1-second back-off as a `Sleep`.
 */
module KeyFailover {
  import opened Text

  /** What one `generateContent` call gives: the response text, or the error's message. */
  datatype Reply = Ok(text: string) | Err(message: string)

  /** One observable step: a call with the key at list position `key`, or a back-off sleep. */
  datatype Event = Call(key: nat, reply: Reply) | Sleep(ms: nat)

  /** How `callGeminiWithFailover` ends: it returns the text, or throws an error with this message. */
  datatype Outcome = Returned(text: string) | Thrown(message: string)

  datatype Run = Run(outcome: Outcome, trace: seq<Event>)

  /** What distinguishes the two copies of the engine. */
  datatype Policy = Policy(keyCount: nat, quotaMarkers: seq<string>, exhaustedMessage: string)

  /**
   * "All API keys have exceeded their quota limits", the exhausted message of
   * analyze-syllabus and the prefix of generate-content's; kept in pieces so
   * that the words the handlers search for are visible to the verifier.
   */
  const QuotaLimitsMessage := "All API keys have " + "exceeded" + " their quota limits"

  /** "All API keys have exceeded their quota limits or are overloaded". */
  const QuotaOrOverloadMessage := QuotaLimitsMessage + " or are " + "overloaded"

  /** generate-content: five keys; overload counts as quota class. */
  const ContentPolicy := Policy(
    5,
    ["429", "quota", "exceeded", "rate limit", "503", "overloaded", "The model is overloaded"],
    QuotaOrOverloadMessage)

  /** analyze-syllabus: two keys; overload ("503") is retried like any other error. */
  const SyllabusPolicy := Policy(
    2,
    ["429", "quota", "exceeded", "rate limit"],
    QuotaLimitsMessage)

  const NoKeysMessage := "No valid API keys available"
  /** Two letters the no-keys message does not have (used to tell it apart from the other messages). */
  lemma NoKeysMessageLetters()
    ensures 'q' !in NoKeysMessage && 'r' !in NoKeysMessage
  {
  }

  /** A string with a 'q' or an 'r' in it does not occur in the no-keys message. */
  lemma NoKeysMessageLacks(w: string, c: char)
    requires c in w && (c == 'q' || c == 'r')
    ensures !Contains(NoKeysMessage, w)
  {
    NoKeysMessageLetters();
    if Contains(NoKeysMessage, w) {
      ContainsChars(NoKeysMessage, w, c);
    }
  }

  /** Some key's environment variable is set. */
  predicate AnyConfigured(configured: seq<bool>) {
    true in configured
  }

  const RetryDelayMs := 1000
  /** The default value of the `maxRetries` parameter. */
  const DefaultMaxRetries := 2

  /** The error is of quota/overload class: its message includes one of the policy's markers. */
  predicate IsQuotaError(p: Policy, message: string) {
    HasMarker(message, p.quotaMarkers)
  }

  /** The `||` chain of `message.includes(w)` tests, one per marker, left to right. */
  predicate HasMarker(message: string, markers: seq<string>)
    decreases |markers|
  {
    markers != [] && (Contains(message, markers[0]) || HasMarker(message, markers[1..]))
  }

  /** The chain holds exactly when some marker occurs in the message. */
  lemma {:induction false} HasMarkerSome(message: string, markers: seq<string>)
    ensures HasMarker(message, markers) <==> exists i :: 0 <= i < |markers| && Contains(message, markers[i])
    decreases |markers|
  {
    if markers != [] {
      HasMarkerSome(message, markers[1..]);
      if exists i :: 0 <= i < |markers| && Contains(message, markers[i]) {
        var i :| 0 <= i < |markers| && Contains(message, markers[i]);
        if i > 0 {
          assert markers[1..][i - 1] == markers[i];
        }
      }
      if HasMarker(message, markers[1..]) {
        var i :| 0 <= i < |markers[1..]| && Contains(message, markers[1..][i]);
        assert markers[i + 1] == markers[1..][i];
      }
    }
  }

  /** The first configured key at list position `j` or later; `|configured|` if there is none. */
  function NextConfigured(configured: seq<bool>, j: nat): (r: nat)
    requires j <= |configured|
    ensures j <= r <= |configured|
    ensures forall i :: j <= i < r ==> !configured[i]
    ensures r < |configured| ==> configured[r]
    decreases |configured| - j
  {
    if j == |configured| || configured[j] then j else NextConfigured(configured, j + 1)
  }

  function CallCount(t: seq<Event>): (c: nat)
    ensures c <= |t|
  {
    if t == [] then 0 else (if t[0].Call? then 1 else 0) + CallCount(t[1..])
  }

  function SleepCount(t: seq<Event>): (c: nat)
    ensures c <= |t|
  {
    if t == [] then 0 else (if t[0].Sleep? then 1 else 0) + SleepCount(t[1..])
  }

  /** The calls of the trace, in order. */
  function Calls(t: seq<Event>): (r: seq<Event>)
    ensures |r| == CallCount(t)
    ensures forall i :: 0 <= i < |r| ==> r[i].Call?
  {
    if t == [] then [] else (if t[0].Call? then [t[0]] else []) + Calls(t[1..])
  }

  function Prepend(pre: seq<Event>, r: Run): Run {
    Run(r.outcome, pre + r.trace)
  }

  /**
   * The engine as a function: one pass of the `for` loop from list position `k`
   * with `retries` units of budget left, `n` backend calls made before.
   */
  function Scan(p: Policy, configured: seq<bool>, backend: nat -> Reply, retries: nat, k: nat, n: nat): Run
    requires |configured| == p.keyCount && k <= p.keyCount
    decreases retries, p.keyCount - k
  {
    if k == p.keyCount then Run(Thrown(NoKeysMessage), [])
    else if !configured[k] then Scan(p, configured, backend, retries, k + 1, n)
    else
      var reply := backend(n);
      match reply
      case Ok(text) => Run(Returned(text), [Call(k, reply)])
      case Err(m) =>
        if IsQuotaError(p, m) then
          if k == p.keyCount - 1 then Run(Thrown(p.exhaustedMessage), [Call(k, reply)])
          else Prepend([Call(k, reply)], Scan(p, configured, backend, retries, k + 1, n + 1))
        else if retries > 0 then
          Prepend([Call(k, reply), Sleep(RetryDelayMs)], Scan(p, configured, backend, retries - 1, 0, n + 1))
        else if k < p.keyCount - 1 then
          Prepend([Call(k, reply)], Scan(p, configured, backend, retries, k + 1, n + 1))
        else Run(Thrown(m), [Call(k, reply)])
  }

  /** `callGeminiWithFailover(prompt, maxRetries)` as a function of the environment. */
  function Failover(p: Policy, configured: seq<bool>, backend: nat -> Reply, maxRetries: nat): Run
    requires |configured| == p.keyCount
  {
    Scan(p, configured, backend, maxRetries, 0, 0)
  }

  /**
   * The engine as the source runs it: a loop over list positions that skips
   * unconfigured keys, returns on the first success, moves on after a quota
   * error, and on any other error sleeps and restarts the whole scan by a
   * recursive call with one unit less of budget. `made` is the number of
   * backend calls made before this invocation (0 for the top-level call).
   */
  method CallWithFailover(p: Policy, configured: seq<bool>, backend: nat -> Reply, maxRetries: nat, made: nat)
    returns (outcome: Outcome, trace: seq<Event>)
    requires |configured| == p.keyCount
    ensures Run(outcome, trace) == Scan(p, configured, backend, maxRetries, 0, made)
    decreases maxRetries
  {
    trace := [];
    var keyIndex := 0;
    while keyIndex < p.keyCount
      invariant keyIndex <= p.keyCount
      invariant CallCount(trace) == |trace|
      invariant Scan(p, configured, backend, maxRetries, 0, made)
        == Prepend(trace, Scan(p, configured, backend, maxRetries, keyIndex, made + |trace|))
    {
      if !configured[keyIndex] {
        keyIndex := keyIndex + 1;
        continue;
      }
      var reply := backend(made + |trace|);
      ghost var before := trace;
      trace := trace + [Call(keyIndex, reply)];
      assert CallCount(trace) == |trace| by { CallCountAppend(before, [Call(keyIndex, reply)]); }
      match reply {
        case Ok(text) =>
          return Returned(text), trace;
        case Err(m) =>
          if IsQuotaError(p, m) {
            if keyIndex == p.keyCount - 1 {
              return Thrown(p.exhaustedMessage), trace;
            }
            keyIndex := keyIndex + 1;
            continue;
          }
          if maxRetries > 0 {
            var restarted, rest := CallWithFailover(p, configured, backend, maxRetries - 1, made + |trace|);
            return restarted, trace + [Sleep(RetryDelayMs)] + rest;
          }
          if keyIndex < p.keyCount - 1 {
            keyIndex := keyIndex + 1;
            continue;
          }
          return Thrown(m), trace;
      }
    }
    return Thrown(NoKeysMessage), trace;
  }

  // ---------------------------------------------------------------------------
  // Counting helpers
  // ---------------------------------------------------------------------------

  lemma {:induction false} CallCountAppend(a: seq<Event>, b: seq<Event>)
    ensures CallCount(a + b) == CallCount(a) + CallCount(b)
    ensures SleepCount(a + b) == SleepCount(a) + SleepCount(b)
    ensures Calls(a + b) == Calls(a) + Calls(b)
    decreases |a|
  {
    if a != [] {
      assert (a + b)[1..] == a[1..] + b;
      CallCountAppend(a[1..], b);
    } else {
      assert a + b == b;
    }
  }

  // ---------------------------------------------------------------------------
  // The trace as an automaton
  // ---------------------------------------------------------------------------

  /** A call that failed with an error outside the quota/overload class. */
  predicate IsTransientFailure(p: Policy, e: Event) {
    e.Call? && e.reply.Err? && !IsQuotaError(p, e.reply.message)
  }

  /**
   * Which event may come right after `e`: nothing after a success; after a
   * quota-class error, a call to the next configured key further down the
   * list; after another error, a 1000 ms sleep or a call to the next
   * configured key; after a sleep, a call to the first configured key of the
   * whole list (the scan restarts from position 0).
   */
  ghost predicate Follows(p: Policy, configured: seq<bool>, e: Event, next: Event)
    requires |configured| == p.keyCount
  {
    match e
    case Sleep(_) =>
      next.Call? && next.key == NextConfigured(configured, 0)
    case Call(k, reply) =>
      && reply.Err?
      && k < p.keyCount
      && (next.Call? ==> next.key == NextConfigured(configured, k + 1))
      && (next.Sleep? ==> next.ms == RetryDelayMs && !IsQuotaError(p, reply.message))
  }

  /**
   * How the run ends after its last event: a success returns its text; after
   * an error with no configured key further down the list, the last list
   * position throws the exhausted message (quota class) or rethrows the
   * error, and any other position runs off the list with "No valid API keys".
   */
  ghost predicate EndsWith(p: Policy, configured: seq<bool>, last: Event, outcome: Outcome)
    requires |configured| == p.keyCount
  {
    match last
    case Sleep(_) => false
    case Call(j, reply) =>
      match reply
      case Ok(text) => outcome == Returned(text)
      case Err(m) =>
        && j < p.keyCount
        && NextConfigured(configured, j + 1) == p.keyCount
        && outcome == Thrown(
             if j < p.keyCount - 1 then NoKeysMessage
             else if IsQuotaError(p, m) then p.exhaustedMessage
             else m)
  }

  /** Every call in the trace is to a configured key. */
  ghost predicate CallsOnlyConfigured(configured: seq<bool>, t: seq<Event>) {
    forall i :: 0 <= i < |t| && t[i].Call? ==> t[i].key < |configured| && configured[t[i].key]
  }

  /** The i-th call of the trace, counting from 0, got the backend's reply number `n + i`. */
  ghost predicate RepliesFromOracle(backend: nat -> Reply, n: nat, t: seq<Event>) {
    forall i :: 0 <= i < CallCount(t) ==> Calls(t)[i].reply == backend(n + i)
  }

  /** Every two consecutive events of the trace are related by `Follows`. */
  ghost predicate StepsFollow(p: Policy, configured: seq<bool>, t: seq<Event>)
    requires |configured| == p.keyCount
  {
    forall i :: 0 <= i < |t| - 1 ==> Follows(p, configured, t[i], t[i + 1])
  }

  /**
   * The retry budget is shared by the whole run: an error outside the quota
   * class is followed by a sleep exactly when fewer than `retries` sleeps
   * came before it, whichever key it came from.
   */
  ghost predicate BudgetShared(p: Policy, retries: nat, t: seq<Event>) {
    forall i :: 0 <= i < |t| && IsTransientFailure(p, t[i]) ==> SleepsWithinBudget(retries, t, i)
  }

  /** The event after position `i` is a sleep exactly when fewer than `retries` sleeps came before `i`. */
  ghost predicate SleepsWithinBudget(retries: nat, t: seq<Event>, i: nat)
    requires i < |t|
  {
    (i + 1 < |t| && t[i + 1].Sleep?) <==> SleepCount(t[..i]) < retries
  }

  /** Only configured keys are called: an unset key never reaches the backend. */
  lemma {:induction false} ScanCallsConfigured(p: Policy, configured: seq<bool>, backend: nat -> Reply, retries: nat, k: nat, n: nat)
    requires |configured| == p.keyCount && k <= p.keyCount
    ensures CallsOnlyConfigured(configured, Scan(p, configured, backend, retries, k, n).trace)
    decreases retries, p.keyCount - k
  {
    if k < p.keyCount {
      if !configured[k] {
        assert Scan(p, configured, backend, retries, k, n) == Scan(p, configured, backend, retries, k + 1, n);
        ScanCallsConfigured(p, configured, backend, retries, k + 1, n);
      } else if backend(n).Err? {
        var m := backend(n).message;
        if k < p.keyCount - 1 && (IsQuotaError(p, m) || retries == 0) {
          ScanCallsConfigured(p, configured, backend, retries, k + 1, n + 1);
        } else if !IsQuotaError(p, m) && retries > 0 {
          ScanCallsConfigured(p, configured, backend, retries - 1, 0, n + 1);
        }
      }
    }
  }

  /** The calls consume the backend's replies in order, across restarts. */
  lemma {:induction false} ScanRepliesInOrder(p: Policy, configured: seq<bool>, backend: nat -> Reply, retries: nat, k: nat, n: nat)
    requires |configured| == p.keyCount && k <= p.keyCount
    ensures RepliesFromOracle(backend, n, Scan(p, configured, backend, retries, k, n).trace)
    decreases retries, p.keyCount - k
  {
    if k < p.keyCount {
      var e := Call(k, backend(n));
      if !configured[k] {
        assert Scan(p, configured, backend, retries, k, n) == Scan(p, configured, backend, retries, k + 1, n);
        ScanRepliesInOrder(p, configured, backend, retries, k + 1, n);
      } else if backend(n).Err? {
        var m := backend(n).message;
        if k < p.keyCount - 1 && (IsQuotaError(p, m) || retries == 0) {
          ScanRepliesInOrder(p, configured, backend, retries, k + 1, n + 1);
          RepliesPrepend(backend, n, k, [e], Scan(p, configured, backend, retries, k + 1, n + 1).trace);
        } else if !IsQuotaError(p, m) && retries > 0 {
          ScanRepliesInOrder(p, configured, backend, retries - 1, 0, n + 1);
          RepliesPrepend(backend, n, k, [e, Sleep(RetryDelayMs)], Scan(p, configured, backend, retries - 1, 0, n + 1).trace);
        } else {
          RepliesPrepend(backend, n, k, [e], []);
          assert [e] + [] == [e];
        }
      } else {
        RepliesPrepend(backend, n, k, [e], []);
        assert [e] + [] == [e];
      }
    }
  }

  lemma RepliesPrepend(backend: nat -> Reply, n: nat, key: nat, pre: seq<Event>, t: seq<Event>)
    requires pre == [Call(key, backend(n))] || pre == [Call(key, backend(n)), Sleep(RetryDelayMs)]
    requires RepliesFromOracle(backend, n + 1, t)
    ensures RepliesFromOracle(backend, n, pre + t)
  {
    assert Calls(pre) == [pre[0]] by {
      assert pre[1..] == [] || pre[1..] == [Sleep(RetryDelayMs)];
    }
    CallCountAppend(pre, t);
    forall i | 0 <= i < CallCount(pre + t)
      ensures Calls(pre + t)[i].reply == backend(n + i)
    {
      if i > 0 {
        assert Calls(pre + t)[i] == Calls(t)[i - 1];
      }
    }
  }

  /** The run's first event is a call to the first configured key at or after `k`; none means no such key. */
  lemma {:induction false} ScanStartsAtNextConfigured(p: Policy, configured: seq<bool>, backend: nat -> Reply, retries: nat, k: nat, n: nat)
    requires |configured| == p.keyCount && k <= p.keyCount
    ensures var t := Scan(p, configured, backend, retries, k, n).trace;
      && (t == [] <==> NextConfigured(configured, k) == p.keyCount)
      && (t != [] ==> t[0] == Call(NextConfigured(configured, k), backend(n)))
    decreases p.keyCount - k
  {
    if k < p.keyCount && !configured[k] {
      ScanStartsAtNextConfigured(p, configured, backend, retries, k + 1, n);
    }
  }

  /** The trace obeys the transition relation `Follows`. */
  lemma {:induction false} ScanSteps(p: Policy, configured: seq<bool>, backend: nat -> Reply, retries: nat, k: nat, n: nat)
    requires |configured| == p.keyCount && k <= p.keyCount
    ensures StepsFollow(p, configured, Scan(p, configured, backend, retries, k, n).trace)
    decreases retries, p.keyCount - k
  {
    if k < p.keyCount {
      if !configured[k] {
        var t := Scan(p, configured, backend, retries, k + 1, n).trace;
        assert Scan(p, configured, backend, retries, k, n).trace == t;
        ScanSteps(p, configured, backend, retries, k + 1, n);
      } else if backend(n).Err? {
        var e := Call(k, backend(n));
        var m := backend(n).message;
        if k < p.keyCount - 1 && (IsQuotaError(p, m) || retries == 0) {
          var t := Scan(p, configured, backend, retries, k + 1, n + 1).trace;
          ScanSteps(p, configured, backend, retries, k + 1, n + 1);
          ScanStartsAtNextConfigured(p, configured, backend, retries, k + 1, n + 1);
          assert t != [] ==> Follows(p, configured, e, t[0]);
          assert Scan(p, configured, backend, retries, k, n).trace == [e] + t;
        } else if !IsQuotaError(p, m) && retries > 0 {
          var t := Scan(p, configured, backend, retries - 1, 0, n + 1).trace;
          ScanSteps(p, configured, backend, retries - 1, 0, n + 1);
          ScanStartsAtNextConfigured(p, configured, backend, retries - 1, 0, n + 1);
          assert NextConfigured(configured, 0) <= k;
          assert Follows(p, configured, Sleep(RetryDelayMs), t[0]);
          assert Scan(p, configured, backend, retries, k, n).trace == [e, Sleep(RetryDelayMs)] + t;
        }
      }
    }
  }

  /** An error outside the quota class sleeps while budget is left, counted over the whole run. */
  lemma {:induction false} ScanBudget(p: Policy, configured: seq<bool>, backend: nat -> Reply, retries: nat, k: nat, n: nat)
    requires |configured| == p.keyCount && k <= p.keyCount
    ensures BudgetShared(p, retries, Scan(p, configured, backend, retries, k, n).trace)
    decreases retries, p.keyCount - k
  {
    if k < p.keyCount {
      var e := Call(k, backend(n));
      if !configured[k] {
        assert Scan(p, configured, backend, retries, k, n) == Scan(p, configured, backend, retries, k + 1, n);
        ScanBudget(p, configured, backend, retries, k + 1, n);
      } else if backend(n).Err? {
        var m := backend(n).message;
        if k < p.keyCount - 1 && (IsQuotaError(p, m) || retries == 0) {
          var t := Scan(p, configured, backend, retries, k + 1, n + 1).trace;
          ScanBudget(p, configured, backend, retries, k + 1, n + 1);
          ScanStartsAtNextConfigured(p, configured, backend, retries, k + 1, n + 1);
          BudgetPrependCall(p, retries, e, t);
        } else if !IsQuotaError(p, m) && retries > 0 {
          ScanBudget(p, configured, backend, retries - 1, 0, n + 1);
          BudgetPrependRestart(p, retries, e, Scan(p, configured, backend, retries - 1, 0, n + 1).trace);
        } else {
          BudgetPrependCall(p, retries, e, []);
          assert [e] + [] == [e];
        }
      } else {
        BudgetPrependCall(p, retries, e, []);
        assert [e] + [] == [e];
      }
    }
  }

  /** The shared-budget condition read at one transient failure of the trace. */
  lemma BudgetAt(p: Policy, retries: nat, t: seq<Event>, j: nat)
    requires BudgetShared(p, retries, t) && j < |t| && IsTransientFailure(p, t[j])
    ensures (j + 1 < |t| && t[j + 1].Sleep?) <==> SleepCount(t[..j]) < retries
  {
  }

  lemma BudgetPrependCall(p: Policy, retries: nat, e: Event, t: seq<Event>)
    requires e.Call? && (IsTransientFailure(p, e) ==> retries == 0)
    requires t != [] ==> t[0].Call?
    requires BudgetShared(p, retries, t)
    ensures BudgetShared(p, retries, [e] + t)
  {
    var whole := [e] + t;
    forall i | 0 <= i < |whole| && IsTransientFailure(p, whole[i])
      ensures (i + 1 < |whole| && whole[i + 1].Sleep?) <==> SleepCount(whole[..i]) < retries
    {
      if i == 0 {
        assert whole[..0] == [];
        assert i + 1 < |whole| ==> whole[i + 1] == t[0];
      } else {
        assert whole[i] == t[i - 1];
        assert whole[..i] == [e] + t[..i - 1];
        CallCountAppend([e], t[..i - 1]);
        assert SleepCount([e]) == 0 by { assert [e][1..] == []; }
        assert i + 1 < |whole| ==> whole[i + 1] == t[i];
        BudgetAt(p, retries, t, i - 1);
        assert SleepCount(whole[..i]) == SleepCount(t[..i - 1]);
        assert (i + 1 < |whole| && whole[i + 1].Sleep?) <==> (i < |t| && t[i].Sleep?);
      }
    }
  }

  lemma BudgetPrependRestart(p: Policy, retries: nat, e: Event, t: seq<Event>)
    requires IsTransientFailure(p, e) && retries > 0
    requires BudgetShared(p, retries - 1, t)
    ensures BudgetShared(p, retries, [e, Sleep(RetryDelayMs)] + t)
  {
    var whole := [e, Sleep(RetryDelayMs)] + t;
    forall i | 0 <= i < |whole| && IsTransientFailure(p, whole[i])
      ensures SleepsWithinBudget(retries, whole, i)
    {
      BudgetRestartAt(p, retries, e, t, i);
    }
  }

  /** The shared-budget condition at position `i` of a trace that restarts after `e`. */
  lemma BudgetRestartAt(p: Policy, retries: nat, e: Event, t: seq<Event>, i: nat)
    requires IsTransientFailure(p, e) && retries > 0
    requires BudgetShared(p, retries - 1, t)
    requires i < 2 + |t| && IsTransientFailure(p, ([e, Sleep(RetryDelayMs)] + t)[i])
    ensures SleepsWithinBudget(retries, [e, Sleep(RetryDelayMs)] + t, i)
  {
    var pre := [e, Sleep(RetryDelayMs)];
    var whole := pre + t;
    if i == 0 {
      assert whole[..0] == [];
    } else {
      assert i >= 2 && whole[i] == t[i - 2];
      assert whole[..i] == pre + t[..i - 2];
      CallCountAppend(pre, t[..i - 2]);
      assert SleepCount(pre) == 1 by {
        assert pre[1..] == [Sleep(RetryDelayMs)];
        assert pre[1..][1..] == [];
      }
      assert i + 1 < |whole| ==> whole[i + 1] == t[i - 1];
      BudgetAt(p, retries - 1, t, i - 2);
      assert SleepCount(whole[..i]) == 1 + SleepCount(t[..i - 2]);
    }
  }

  /** One step of a scan at a configured key whose call fails: what the scan continues with. */
  lemma ScanAfterError(p: Policy, configured: seq<bool>, backend: nat -> Reply, retries: nat, k: nat, n: nat)
    requires |configured| == p.keyCount && k < p.keyCount && configured[k] && backend(n).Err?
    ensures var e := Call(k, backend(n));
      var m := backend(n).message;
      var r := Scan(p, configured, backend, retries, k, n);
      && (IsQuotaError(p, m) && k == p.keyCount - 1 ==> r == Run(Thrown(p.exhaustedMessage), [e]))
      && ((IsQuotaError(p, m) || retries == 0) && k < p.keyCount - 1 ==>
            r == Prepend([e], Scan(p, configured, backend, retries, k + 1, n + 1)))
      && (!IsQuotaError(p, m) && retries > 0 ==>
            r == Prepend([e, Sleep(RetryDelayMs)], Scan(p, configured, backend, retries - 1, 0, n + 1)))
      && (!IsQuotaError(p, m) && retries == 0 && k == p.keyCount - 1 ==> r == Run(Thrown(m), [e]))
  {
  }

  /** What the run's outcome is, read off its last event. */
  lemma {:induction false} ScanEnding(p: Policy, configured: seq<bool>, backend: nat -> Reply, retries: nat, k: nat, n: nat)
    requires |configured| == p.keyCount && k <= p.keyCount
    ensures var r := Scan(p, configured, backend, retries, k, n);
      && (r.trace == [] ==> r.outcome == Thrown(NoKeysMessage))
      && (r.trace != [] ==> EndsWith(p, configured, r.trace[|r.trace| - 1], r.outcome))
    decreases retries, p.keyCount - k
  {
    if k < p.keyCount {
      var e := Call(k, backend(n));
      if !configured[k] {
        assert Scan(p, configured, backend, retries, k, n) == Scan(p, configured, backend, retries, k + 1, n);
        ScanEnding(p, configured, backend, retries, k + 1, n);
      } else if backend(n).Err? {
        var m := backend(n).message;
        ScanAfterError(p, configured, backend, retries, k, n);
        if k < p.keyCount - 1 && (IsQuotaError(p, m) || retries == 0) {
          ScanEnding(p, configured, backend, retries, k + 1, n + 1);
          ScanStartsAtNextConfigured(p, configured, backend, retries, k + 1, n + 1);
          EndingMoveOn(p, configured, e, Scan(p, configured, backend, retries, k + 1, n + 1));
        } else if !IsQuotaError(p, m) && retries > 0 {
          ScanEnding(p, configured, backend, retries - 1, 0, n + 1);
          ScanStartsAtNextConfigured(p, configured, backend, retries - 1, 0, n + 1);
          assert NextConfigured(configured, 0) <= k;
          EndingAfter(p, configured, [e, Sleep(RetryDelayMs)], Scan(p, configured, backend, retries - 1, 0, n + 1));
        } else {
          EndingAtLast(p, configured, k, m, Scan(p, configured, backend, retries, k, n).outcome);
        }
      } else {
        assert Scan(p, configured, backend, retries, k, n) == Run(Returned(backend(n).text), [e]);
      }
    }
  }

  /** The conclusion of `ScanEnding` for one run. */
  ghost predicate EndsProperly(p: Policy, configured: seq<bool>, r: Run)
    requires |configured| == p.keyCount
  {
    && (r.trace == [] ==> r.outcome == Thrown(NoKeysMessage))
    && (r.trace != [] ==> EndsWith(p, configured, r.trace[|r.trace| - 1], r.outcome))
  }

  /** Events put in front of a non-empty run leave its last event, and so its ending, as they were. */
  lemma EndingAfter(p: Policy, configured: seq<bool>, pre: seq<Event>, r: Run)
    requires |configured| == p.keyCount
    requires r.trace != [] && EndsProperly(p, configured, r)
    ensures EndsProperly(p, configured, Prepend(pre, r))
  {
    var w := Prepend(pre, r);
    assert w.trace[|w.trace| - 1] == r.trace[|r.trace| - 1];
  }

  /** A failed call before a move to the next key ends the run itself when no key is left to move to. */
  lemma EndingMoveOn(p: Policy, configured: seq<bool>, e: Event, r: Run)
    requires |configured| == p.keyCount && e.Call? && e.reply.Err? && e.key < p.keyCount - 1
    requires EndsProperly(p, configured, r)
    requires r.trace == [] <==> NextConfigured(configured, e.key + 1) == p.keyCount
    ensures EndsProperly(p, configured, Prepend([e], r))
  {
    if r.trace == [] {
      assert Prepend([e], r).trace == [e];
    } else {
      EndingAfter(p, configured, [e], r);
    }
  }

  /** A failed call at the last position ends the run with the exhausted error or the error itself. */
  lemma EndingAtLast(p: Policy, configured: seq<bool>, k: nat, m: string, outcome: Outcome)
    requires |configured| == p.keyCount && k == p.keyCount - 1
    requires outcome == Thrown(if IsQuotaError(p, m) then p.exhaustedMessage else m)
    ensures EndsProperly(p, configured, Run(outcome, [Call(k, Err(m))]))
  {
    assert NextConfigured(configured, k + 1) == p.keyCount;
  }

  /** A pass from `k` calls at most `keyCount - k` keys before it restarts, and each restart spends budget. */
  lemma {:induction false} ScanBounds(p: Policy, configured: seq<bool>, backend: nat -> Reply, retries: nat, k: nat, n: nat)
    requires |configured| == p.keyCount && k <= p.keyCount
    ensures var t := Scan(p, configured, backend, retries, k, n).trace;
      && CallCount(t) <= (p.keyCount - k) + Passes(retries, p.keyCount)
      && SleepCount(t) <= retries
    decreases retries, p.keyCount - k
  {
    if k < p.keyCount {
      var e := Call(k, backend(n));
      if !configured[k] {
        assert Scan(p, configured, backend, retries, k, n) == Scan(p, configured, backend, retries, k + 1, n);
        ScanBounds(p, configured, backend, retries, k + 1, n);
      } else if backend(n).Err? {
        var m := backend(n).message;
        ScanAfterError(p, configured, backend, retries, k, n);
        if k < p.keyCount - 1 && (IsQuotaError(p, m) || retries == 0) {
          ScanBounds(p, configured, backend, retries, k + 1, n + 1);
          BoundsAfterCall(p.keyCount, k, retries, e, Scan(p, configured, backend, retries, k + 1, n + 1).trace);
        } else if !IsQuotaError(p, m) && retries > 0 {
          ScanBounds(p, configured, backend, retries - 1, 0, n + 1);
          BoundsAfterRestart(p.keyCount, k, retries, e, Scan(p, configured, backend, retries - 1, 0, n + 1).trace);
        } else {
          OneCall(e);
        }
      } else {
        OneCall(e);
      }
    }
  }

  /** A call in front of a scan from the next key stays within the bounds. */
  lemma BoundsAfterCall(keyCount: nat, k: nat, retries: nat, e: Event, t: seq<Event>)
    requires e.Call? && k < keyCount
    requires CallCount(t) <= keyCount - (k + 1) + Passes(retries, keyCount) && SleepCount(t) <= retries
    ensures CallCount([e] + t) <= keyCount - k + Passes(retries, keyCount) && SleepCount([e] + t) <= retries
  {
    CallCountAppend([e], t);
    OneCall(e);
  }

  /** A call and a sleep in front of a fresh pass spend one pass and one sleep of the budget. */
  lemma BoundsAfterRestart(keyCount: nat, k: nat, retries: nat, e: Event, t: seq<Event>)
    requires e.Call? && k < keyCount && retries > 0
    requires CallCount(t) <= keyCount + Passes(retries - 1, keyCount) && SleepCount(t) <= retries - 1
    ensures CallCount([e, Sleep(RetryDelayMs)] + t) <= keyCount - k + Passes(retries, keyCount)
    ensures SleepCount([e, Sleep(RetryDelayMs)] + t) <= retries
  {
    CallCountAppend([e, Sleep(RetryDelayMs)], t);
    CallCountAppend([e], [Sleep(RetryDelayMs)]);
    assert [e] + [Sleep(RetryDelayMs)] == [e, Sleep(RetryDelayMs)];
    OneCall(e);
    OneSleep(RetryDelayMs);
  }

  lemma OneCall(e: Event)
    requires e.Call?
    ensures CallCount([e]) == 1 && SleepCount([e]) == 0
  {
    assert [e][1..] == [];
  }

  lemma OneSleep(ms: nat)
    ensures CallCount([Sleep(ms)]) == 0 && SleepCount([Sleep(ms)]) == 1
  {
    assert [Sleep(ms)][1..] == [];
  }

  /** The calls `retries` more passes over `keyCount` keys may make. */
  function Passes(retries: nat, keyCount: nat): (c: nat)
  {
    if retries == 0 then 0 else keyCount + Passes(retries - 1, keyCount)
  }

  lemma {:induction false} PassesIsProduct(retries: nat, keyCount: nat)
    ensures Passes(retries, keyCount) == retries * keyCount
  {
    if retries > 0 {
      PassesIsProduct(retries - 1, keyCount);
      assert (retries - 1) * keyCount + keyCount == retries * keyCount;
    }
  }

  /** The whole call makes at most keyCount * (maxRetries + 1) backend calls and sleeps at most maxRetries times. */
  lemma FailoverBounds(p: Policy, configured: seq<bool>, backend: nat -> Reply, maxRetries: nat)
    requires |configured| == p.keyCount
    ensures var t := Failover(p, configured, backend, maxRetries).trace;
      && CallCount(t) <= p.keyCount * (maxRetries + 1)
      && SleepCount(t) <= maxRetries
  {
    ScanBounds(p, configured, backend, maxRetries, 0, 0);
    PassesIsProduct(maxRetries, p.keyCount);
    assert p.keyCount * (maxRetries + 1) == p.keyCount + maxRetries * p.keyCount;
  }

  // ---------------------------------------------------------------------------
  // Whole-call properties
  // ---------------------------------------------------------------------------

  /** Both exhausted messages are themselves of quota class and differ from the no-keys message. */
  lemma ExhaustedMessageIsQuotaClass(p: Policy)
    requires p == ContentPolicy || p == SyllabusPolicy
    ensures IsQuotaError(p, p.exhaustedMessage)
    ensures p.exhaustedMessage != NoKeysMessage
  {
    ContainsInfix("All API keys have ", "exceeded", " their quota limits");
    if p == ContentPolicy {
      ContainsExtend(QuotaLimitsMessage, " or are " + "overloaded", "exceeded");
      assert QuotaOrOverloadMessage == QuotaLimitsMessage + (" or are " + "overloaded");
    }
    assert p.quotaMarkers[2] == "exceeded";
    MarkerAt(p.exhaustedMessage, p.quotaMarkers, 2);
    assert p.exhaustedMessage[0] == 'A' != NoKeysMessage[0];
  }

  /**
   * The exhausted error is thrown exactly when the run ends on a quota-class
   * error from the key at the last list position, whatever keys before it did.
   */
  lemma ExhaustedOnlyAtLastPosition(p: Policy, configured: seq<bool>, backend: nat -> Reply, maxRetries: nat)
    requires p == ContentPolicy || p == SyllabusPolicy
    requires |configured| == p.keyCount
    ensures var r := Failover(p, configured, backend, maxRetries);
      r.outcome == Thrown(p.exhaustedMessage) <==>
        (r.trace != [] && r.trace[|r.trace| - 1].Call? &&
         r.trace[|r.trace| - 1].key == p.keyCount - 1 &&
         r.trace[|r.trace| - 1].reply.Err? &&
         IsQuotaError(p, r.trace[|r.trace| - 1].reply.message))
  {
    var r := Failover(p, configured, backend, maxRetries);
    ScanEnding(p, configured, backend, maxRetries, 0, 0);
    ExhaustedMessageIsQuotaClass(p);
    if r.trace != [] {
      EndingExhausted(p, configured, r.trace[|r.trace| - 1], r.outcome);
    }
  }

  /** Read off one last event: the outcome is the exhausted error exactly when that event is a quota-class error at the last position. */
  lemma EndingExhausted(p: Policy, configured: seq<bool>, last: Event, outcome: Outcome)
    requires |configured| == p.keyCount && EndsWith(p, configured, last, outcome)
    requires IsQuotaError(p, p.exhaustedMessage) && p.exhaustedMessage != NoKeysMessage
    ensures outcome == Thrown(p.exhaustedMessage) <==>
      (last.Call? && last.key == p.keyCount - 1 && last.reply.Err? && IsQuotaError(p, last.reply.message))
  {
  }

  /** The configured list positions at or after `k`, in order. */
  function ConfiguredFrom(configured: seq<bool>, k: nat): (ks: seq<nat>)
    requires k <= |configured|
    ensures forall i :: 0 <= i < |ks| ==> k <= ks[i] < |configured| && configured[ks[i]]
    decreases |configured| - k
  {
    if k == |configured| then []
    else (if configured[k] then [k] else []) + ConfiguredFrom(configured, k + 1)
  }

  /** One call to each key of `ks` in turn, the first getting reply number `n`. */
  function CallsInOrder(ks: seq<nat>, backend: nat -> Reply, n: nat): seq<Event> {
    if ks == [] then [] else [Call(ks[0], backend(n))] + CallsInOrder(ks[1..], backend, n + 1)
  }

  /**
   * When every reply is a quota-class error, each configured key from `k` on is
   * called exactly once, in list order, with no sleep; the run ends with the
   * exhausted error if the last list position is configured and with "No valid
   * API keys" otherwise.
   */
  lemma {:induction false} ScanAllQuotaErrors(p: Policy, configured: seq<bool>, backend: nat -> Reply, retries: nat, k: nat, n: nat)
    requires |configured| == p.keyCount && k <= p.keyCount
    requires forall i :: backend(i).Err? && IsQuotaError(p, backend(i).message)
    ensures var r := Scan(p, configured, backend, retries, k, n);
      && r.trace == CallsInOrder(ConfiguredFrom(configured, k), backend, n)
      && r.outcome == Thrown(if k < p.keyCount && configured[p.keyCount - 1] then p.exhaustedMessage else NoKeysMessage)
    decreases p.keyCount - k
  {
    if k < p.keyCount {
      if !configured[k] {
        ScanAllQuotaErrors(p, configured, backend, retries, k + 1, n);
        QuotaSkip(p, configured, backend, retries, k, n);
      } else if k < p.keyCount - 1 {
        ScanAllQuotaErrors(p, configured, backend, retries, k + 1, n + 1);
        QuotaCall(p, configured, backend, retries, k, n);
      } else {
        QuotaLast(p, configured, backend, retries, k, n);
      }
    }
  }

  /** The conclusion of `ScanAllQuotaErrors` for a scan from `k`. */
  ghost predicate EachKeyOnce(p: Policy, configured: seq<bool>, backend: nat -> Reply, retries: nat, k: nat, n: nat)
    requires |configured| == p.keyCount && k <= p.keyCount
  {
    var r := Scan(p, configured, backend, retries, k, n);
    && r.trace == CallsInOrder(ConfiguredFrom(configured, k), backend, n)
    && r.outcome == Thrown(if k < p.keyCount && configured[p.keyCount - 1] then p.exhaustedMessage else NoKeysMessage)
  }

  lemma QuotaSkip(p: Policy, configured: seq<bool>, backend: nat -> Reply, retries: nat, k: nat, n: nat)
    requires |configured| == p.keyCount && k < p.keyCount && !configured[k]
    requires EachKeyOnce(p, configured, backend, retries, k + 1, n)
    ensures EachKeyOnce(p, configured, backend, retries, k, n)
  {
    assert Scan(p, configured, backend, retries, k, n) == Scan(p, configured, backend, retries, k + 1, n);
    assert ConfiguredFrom(configured, k) == [] + ConfiguredFrom(configured, k + 1);
    assert [] + ConfiguredFrom(configured, k + 1) == ConfiguredFrom(configured, k + 1);
  }

  lemma QuotaCall(p: Policy, configured: seq<bool>, backend: nat -> Reply, retries: nat, k: nat, n: nat)
    requires |configured| == p.keyCount && k < p.keyCount - 1 && configured[k]
    requires backend(n).Err? && IsQuotaError(p, backend(n).message)
    requires EachKeyOnce(p, configured, backend, retries, k + 1, n + 1)
    ensures EachKeyOnce(p, configured, backend, retries, k, n)
  {
    var ks := ConfiguredFrom(configured, k);
    var rest := ConfiguredFrom(configured, k + 1);
    assert Scan(p, configured, backend, retries, k, n)
        == Prepend([Call(k, backend(n))], Scan(p, configured, backend, retries, k + 1, n + 1));
    assert ks == [k] + rest;
    assert ks[1..] == rest;
    assert CallsInOrder(ks, backend, n) == [Call(k, backend(n))] + CallsInOrder(rest, backend, n + 1);
  }

  lemma QuotaLast(p: Policy, configured: seq<bool>, backend: nat -> Reply, retries: nat, k: nat, n: nat)
    requires |configured| == p.keyCount && k == p.keyCount - 1 && configured[k]
    requires backend(n).Err? && IsQuotaError(p, backend(n).message)
    ensures EachKeyOnce(p, configured, backend, retries, k, n)
  {
    var ks := ConfiguredFrom(configured, k);
    assert Scan(p, configured, backend, retries, k, n) == Run(Thrown(p.exhaustedMessage), [Call(k, backend(n))]);
    assert ConfiguredFrom(configured, k + 1) == [];
    assert ks == [k];
    assert ks[1..] == [];
    assert CallsInOrder(ks, backend, n) == [Call(k, backend(n))];
  }

  /** `maxRetries` rounds of a failed call and a sleep, then the final failed call, all on key `c`. */
  function Retried(c: nat, reply: Reply, rounds: nat): seq<Event> {
    if rounds == 0 then [Call(c, reply)]
    else [Call(c, reply), Sleep(RetryDelayMs)] + Retried(c, reply, rounds - 1)
  }

  /** Scanning over unconfigured positions changes nothing. */
  lemma {:induction false} ScanSkipsUnconfigured(p: Policy, configured: seq<bool>, backend: nat -> Reply, retries: nat, k: nat, j: nat, n: nat)
    requires |configured| == p.keyCount && k <= j <= p.keyCount
    requires forall i :: k <= i < j ==> !configured[i]
    ensures Scan(p, configured, backend, retries, k, n) == Scan(p, configured, backend, retries, j, n)
    decreases j - k
  {
    if k < j {
      ScanSkipsUnconfigured(p, configured, backend, retries, k + 1, j, n);
    }
  }

  /**
   * With only key `c` configured and a backend that always fails with the same
   * error outside the quota class, key `c` is tried `maxRetries + 1` times with
   * a sleep between tries; then the error is rethrown if `c` is the last list
   * position, and "No valid API keys" is thrown otherwise.
   */
  lemma {:induction false} PersistentTransientError(p: Policy, configured: seq<bool>, backend: nat -> Reply, maxRetries: nat, c: nat, m: string, n: nat)
    requires |configured| == p.keyCount && c < p.keyCount
    requires forall i :: 0 <= i < |configured| ==> (configured[i] <==> i == c)
    requires forall i :: backend(i) == Err(m)
    requires !IsQuotaError(p, m)
    ensures Scan(p, configured, backend, maxRetries, 0, n)
      == Run(Thrown(if c == p.keyCount - 1 then m else NoKeysMessage), Retried(c, Err(m), maxRetries))
    decreases maxRetries
  {
    ScanSkipsUnconfigured(p, configured, backend, maxRetries, 0, c, n);
    if maxRetries > 0 {
      PersistentTransientError(p, configured, backend, maxRetries - 1, c, m, n + 1);
    } else if c < p.keyCount - 1 {
      ScanSkipsUnconfigured(p, configured, backend, maxRetries, c + 1, p.keyCount, n + 1);
    }
  }

  /** With no key configured, the backend is never called and "No valid API keys" is thrown. */
  lemma NoKeyConfigured(p: Policy, configured: seq<bool>, backend: nat -> Reply, maxRetries: nat)
    requires |configured| == p.keyCount
    requires forall i :: 0 <= i < |configured| ==> !configured[i]
    ensures Failover(p, configured, backend, maxRetries) == Run(Thrown(NoKeysMessage), [])
  {
    ScanSkipsUnconfigured(p, configured, backend, maxRetries, 0, p.keyCount, 0);
  }

  /**
   * The two copies classify an overload error differently: generate-content
   * moves on to the next key, analyze-syllabus retries it after a sleep.
   */
  lemma OverloadClassDiffers()
    ensures IsQuotaError(ContentPolicy, "503 overloaded")
    ensures !IsQuotaError(SyllabusPolicy, "503 overloaded")
  {
    OverloadIsContentQuota();
    OverloadIsNotSyllabusQuota();
  }

  lemma OverloadIsContentQuota()
    ensures IsQuotaError(ContentPolicy, "503 overloaded")
  {
    var msg := "503 overloaded";
    ContainsInfix("", "503", " overloaded");
    assert "" + "503" + " overloaded" == msg;
    var markers := ContentPolicy.quotaMarkers;
    assert markers[4] == "503";
    MarkerAt(msg, markers, 4);
  }

  /** One marker occurring is enough. */
  lemma {:induction false} MarkerAt(message: string, markers: seq<string>, i: nat)
    requires i < |markers| && Contains(message, markers[i])
    ensures HasMarker(message, markers)
    decreases i
  {
    if i > 0 {
      assert markers[1..][i - 1] == markers[i];
      MarkerAt(message, markers[1..], i - 1);
    }
  }

  lemma OverloadIsNotSyllabusQuota()
    ensures !IsQuotaError(SyllabusPolicy, "503 overloaded")
  {
    var markers := SyllabusPolicy.quotaMarkers;
    assert markers == ["429", "quota", "exceeded", "rate limit"];
    NoMarker("503 overloaded", markers, ['4', 'q', 'x', 'm']);
  }

  /** No marker occurs in a message that lacks, for each marker, one of its characters. */
  lemma {:induction false} NoMarker(message: string, markers: seq<string>, missing: seq<char>)
    requires |missing| == |markers|
    requires forall i :: 0 <= i < |markers| ==> missing[i] in markers[i] && missing[i] !in message
    ensures !HasMarker(message, markers)
    decreases |markers|
  {
    if markers != [] {
      if Contains(message, markers[0]) {
        ContainsChars(message, markers[0], missing[0]);
      }
      NoMarker(message, markers[1..], missing[1..]);
    }
  }
}
