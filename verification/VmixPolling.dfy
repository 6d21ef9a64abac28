/** VmixConnectionManager.pollApi over the lifetime of one instance: connection hysteresis and the change feed. */
module VmixPolling {
  import opened Wrappers

  /** What parseInt returns. NaN differs from everything, itself included. */
  datatype Reading = NaN | Number(n: int)

  /** The parts of a parsed answer that decide whether something changed. */
  datatype Sample = Sample(active: Reading, preview: Reading, isStreaming: bool, isRecording: bool, inputs: nat)

  /** Milliseconds since 1970. Zero would read as "no first failure yet". */
  type Millis = t: int | t > 0 witness 1

  /** A failed poll reads the clock when it records a first failure, and again for the window. */
  datatype Poll = Success(sample: Sample) | Failure(failedAt: Millis, checkedAt: Millis)

  datatype Event = InputChanged(sample: Sample) | ConnectionState(connected: bool)

  const DISCONNECT_AFTER_FAILURES := 3
  const DISCONNECT_AFTER_MS := 5000

  /** The observed values; inputs are undefined until the first successful poll. */
  datatype View = View(active: Option<Reading>, preview: Option<Reading>,
                       isStreaming: bool, isRecording: bool, inputs: nat)

  datatype Instance = Instance(view: View, pollingFailureCount: nat, firstFailureAt: Option<Millis>, isConnected: bool)

  const FreshView := View(None, None, false, false, 0)
  const Fresh := Instance(FreshView, 0, None, false)

  function ViewOf(s: Sample): View {
    View(Some(s.active), Some(s.preview), s.isStreaming, s.isRecording, s.inputs)
  }

  /** `a !== b`. */
  predicate Differs(a: Option<Reading>, b: Reading) {
    a.None? || a.value.NaN? || b.NaN? || a.value != b
  }

  predicate HasChanged(v: View, s: Sample) {
    || Differs(v.active, s.active) || Differs(v.preview, s.preview)
    || v.isStreaming != s.isStreaming || v.isRecording != s.isRecording || v.inputs != s.inputs
  }

  function FirstFailure(i: Instance, p: Poll): Millis
    requires p.Failure?
  {
    if i.firstFailureAt.Some? then i.firstFailureAt.value else p.failedAt
  }

  predicate Disconnects(i: Instance, p: Poll) {
    && p.Failure? && i.isConnected
    && i.pollingFailureCount + 1 >= DISCONNECT_AFTER_FAILURES
    && p.checkedAt - FirstFailure(i, p) >= DISCONNECT_AFTER_MS
  }

  function PollStep(i: Instance, p: Poll): Instance {
    match p
    case Success(s) => Instance(ViewOf(s), 0, None, true)
    case Failure(_, _) =>
      Instance(i.view, i.pollingFailureCount + 1, Some(FirstFailure(i, p)), i.isConnected && !Disconnects(i, p))
  }

  function Emitted(i: Instance, p: Poll): seq<Event> {
    match p
    case Success(s) =>
      (if HasChanged(i.view, s) then [InputChanged(s)] else [])
      + (if i.isConnected then [] else [ConnectionState(true)])
    case Failure(_, _) => if Disconnects(i, p) then [ConnectionState(false)] else []
  }

  /** The instance after the first polls of its life, and all events until then. */
  function After(polls: seq<Poll>): Instance {
    if polls == [] then Fresh else PollStep(After(polls[..|polls| - 1]), polls[|polls| - 1])
  }

  function Trace(polls: seq<Poll>): seq<Event> {
    if polls == [] then []
    else Trace(polls[..|polls| - 1]) + Emitted(After(polls[..|polls| - 1]), polls[|polls| - 1])
  }

  // ---------------------------------------------------------------- connection events

  function ConnectionEvents(events: seq<Event>): seq<bool> {
    if events == [] then []
    else
      var last := events[|events| - 1];
      ConnectionEvents(events[..|events| - 1]) + if last.ConnectionState? then [last.connected] else []
  }

  lemma {:induction false} ConnectionEventsConcat(a: seq<Event>, b: seq<Event>)
    ensures ConnectionEvents(a + b) == ConnectionEvents(a) + ConnectionEvents(b)
  {
    if b == [] {
      assert a + b == a;
    } else {
      ConnectionEventsConcat(a, b[..|b| - 1]);
      assert (a + b)[..|a + b| - 1] == a + b[..|b| - 1];
    }
  }

  lemma EmittedConnectionEvents(i: Instance, p: Poll)
    ensures ConnectionEvents(Emitted(i, p)) ==
            if p.Success? && !i.isConnected then [true] else if Disconnects(i, p) then [false] else []
  {
    var e := Emitted(i, p);
    if p.Success? {
      var changed := if HasChanged(i.view, p.sample) then [InputChanged(p.sample)] else [];
      var connected := if i.isConnected then [] else [ConnectionState(true)];
      assert changed != [] ==> changed[..0] == [];
      assert connected != [] ==> connected[..0] == [];
      ConnectionEventsConcat(changed, connected);
    } else if e != [] {
      assert e[..0] == [];
    }
  }

  predicate Alternate(events: seq<bool>) {
    forall k :: 0 <= k < |events| ==> events[k] == (k % 2 == 0)
  }

  lemma ConnectedAfter(polls: seq<Poll>)
    requires polls != []
    ensures var i, p := After(polls[..|polls| - 1]), polls[|polls| - 1];
            After(polls).isConnected <==> p.Success? || (i.isConnected && !Disconnects(i, p))
  {
  }

  lemma TraceSplits(polls: seq<Poll>)
    requires polls != []
    ensures var front, last := polls[..|polls| - 1], polls[|polls| - 1];
            ConnectionEvents(Trace(polls)) ==
                ConnectionEvents(Trace(front)) + ConnectionEvents(Emitted(After(front), last))
  {
    ConnectionEventsConcat(Trace(polls[..|polls| - 1]), Emitted(After(polls[..|polls| - 1]), polls[|polls| - 1]));
  }

  lemma AlternateSnoc(events: seq<bool>, connected: bool)
    requires Alternate(events) && (connected <==> |events| % 2 == 0)
    ensures Alternate(events + [connected]) && (connected <==> |events + [connected]| % 2 == 1)
  {
  }

  /** Connection events strictly alternate, starting with connected; the last one tells the instance's state. */
  lemma {:induction false} ConnectionEventsAlternate(polls: seq<Poll>)
    ensures Alternate(ConnectionEvents(Trace(polls)))
    ensures After(polls).isConnected <==> |ConnectionEvents(Trace(polls))| % 2 == 1
  {
    if polls != [] {
      var front, last := polls[..|polls| - 1], polls[|polls| - 1];
      hide Emitted, PollStep, After, ConnectionEvents, Alternate, Trace, Disconnects;
      var i, before := After(front), ConnectionEvents(Trace(front));
      ConnectionEventsAlternate(front);
      TraceSplits(polls);
      EmittedConnectionEvents(i, last);
      ConnectedAfter(polls);
      if last.Success? && !i.isConnected {
        AlternateSnoc(before, true);
      } else if Disconnects(i, last) {
        OnlyConnectedDisconnects(i, last);
        AlternateSnoc(before, false);
      } else {
        assert before + [] == before;
      }
    }
  }

  lemma OnlyConnectedDisconnects(i: Instance, p: Poll)
    requires Disconnects(i, p)
    ensures i.isConnected && p.Failure?
  {
  }

  // ---------------------------------------------------------------- hysteresis

  /** The number of failed polls since the last success. */
  function FailureBlock(polls: seq<Poll>): nat {
    if polls == [] || polls[|polls| - 1].Success? then 0 else 1 + FailureBlock(polls[..|polls| - 1])
  }

  lemma {:induction false} BlockIsMaximal(polls: seq<Poll>)
    ensures var i := |polls| - FailureBlock(polls);
            0 <= i && (forall k :: i <= k < |polls| ==> polls[k].Failure?) && (i > 0 ==> polls[i - 1].Success?)
  {
    if polls != [] && polls[|polls| - 1].Failure? {
      BlockIsMaximal(polls[..|polls| - 1]);
    }
  }

  /** The counter and the first-failure time describe the current block of failures. */
  lemma {:induction false} CountersDescribeBlock(polls: seq<Poll>)
    ensures var i, n := After(polls), FailureBlock(polls);
            && i.pollingFailureCount == n <= |polls|
            && (if n == 0 then i.firstFailureAt == None
                else polls[|polls| - n].Failure? && i.firstFailureAt == Some(polls[|polls| - n].failedAt))
  {
    if polls != [] {
      CountersDescribeBlock(polls[..|polls| - 1]);
    }
  }

  /** The failures i .. j, with no success before them inside the block, are at least three and span five seconds. */
  predicate IsOutage(polls: seq<Poll>, i: nat, j: nat) {
    && i <= j < |polls| && j - i + 1 >= DISCONNECT_AFTER_FAILURES
    && (forall k :: i <= k <= j ==> polls[k].Failure?)
    && (i > 0 ==> polls[i - 1].Success?)
    && polls[j].checkedAt - polls[i].failedAt >= DISCONNECT_AFTER_MS
  }

  predicate EmitsDisconnect(polls: seq<Poll>, j: nat)
    requires j < |polls|
  {
    ConnectionState(false) in Emitted(After(polls[..j]), polls[j])
  }

  /**
   A poll reports the disconnect exactly when the instance was connected and the maximal block of failures that
   the poll ends is an outage.
   */
  lemma DisconnectIffOutage(polls: seq<Poll>, j: nat)
    requires j < |polls|
    ensures EmitsDisconnect(polls, j) <==> After(polls[..j]).isConnected && exists i :: IsOutage(polls, i, j)
  {
    var now := polls[..j + 1];
    var n := FailureBlock(now);
    assert now[..|now| - 1] == polls[..j];
    CountersDescribeBlock(polls[..j]);
    CountersDescribeBlock(now);
    BlockIsMaximal(now);
    assert forall k :: 0 <= k <= j ==> now[k] == polls[k];
    if EmitsDisconnect(polls, j) {
      assert IsOutage(polls, j + 1 - n, j);
    }
    if After(polls[..j]).isConnected && exists i :: IsOutage(polls, i, j) {
      var i :| IsOutage(polls, i, j);
      BlockStartIsUnique(now, i);
      assert Disconnects(After(polls[..j]), polls[j]);
      assert ConnectionState(false) in Emitted(After(polls[..j]), polls[j]);
    }
  }

  lemma {:induction false} BlockStartIsUnique(polls: seq<Poll>, i: nat)
    requires i < |polls| && (forall k :: i <= k < |polls| ==> polls[k].Failure?) && (i > 0 ==> polls[i - 1].Success?)
    ensures FailureBlock(polls) == |polls| - i
  {
    var front := polls[..|polls| - 1];
    if i < |front| {
      BlockStartIsUnique(front, i);
    } else {
      assert i > 0 ==> front[|front| - 1] == polls[i - 1];
    }
  }

  /** An outage of a connected instance ends in a disconnect, at its last poll at the latest. */
  lemma OutageForcesDisconnect(polls: seq<Poll>, i: nat, j: nat)
    requires IsOutage(polls, i, j) && After(polls[..i]).isConnected
    ensures exists k :: i <= k <= j && EmitsDisconnect(polls, k)
  {
    if After(polls[..j]).isConnected {
      DisconnectIffOutage(polls, j);
    } else {
      var k := LosesConnection(polls, i, j);
      assert EmitsDisconnect(polls, k);
    }
  }

  lemma {:induction false} LosesConnection(polls: seq<Poll>, i: nat, j: nat) returns (k: nat)
    requires i <= j < |polls| && After(polls[..i]).isConnected && !After(polls[..j]).isConnected
    ensures i <= k < j && EmitsDisconnect(polls, k)
  {
    assert polls[..j][..j - 1] == polls[..j - 1];
    if After(polls[..j - 1]).isConnected {
      k := j - 1;
    } else {
      k := LosesConnection(polls, i, j - 1);
    }
  }

  // ---------------------------------------------------------------- the change feed

  /** A consumer that looks at InputChanged events only. */
  function Replay(events: seq<Event>): View {
    if events == [] then FreshView
    else
      var last := events[|events| - 1];
      if last.InputChanged? then ViewOf(last.sample) else Replay(events[..|events| - 1])
  }

  lemma {:induction false} ReplayConcat(a: seq<Event>, b: seq<Event>)
    ensures Replay(a + b) == if SendsValues(b) then Replay(b) else Replay(a)
  {
    if b == [] {
      assert a + b == a;
    } else {
      var front := b[..|b| - 1];
      ReplayConcat(a, front);
      assert (a + b)[..|a + b| - 1] == a + front;
      assert forall k :: 0 <= k < |front| ==> front[k] == b[k];
    }
  }

  /** A sample counts as a change exactly if it differs from what is held, or holds a number that is none. */
  lemma ChangedIff(v: View, s: Sample)
    ensures HasChanged(v, s) <==> ViewOf(s) != v || s.active.NaN? || s.preview.NaN?
  {
  }

  /** The values held after a success are those of the sample. */
  lemma ViewIsSample(s: Sample)
    ensures var v := ViewOf(s);
            v.active == Some(s.active) && v.preview == Some(s.preview) && v.isStreaming == s.isStreaming
            && v.isRecording == s.isRecording && v.inputs == s.inputs
  {
  }

  lemma UnchangedView(v: View, s: Sample)
    requires !HasChanged(v, s)
    ensures ViewOf(s) == v
  {
  }

  predicate SendsValues(events: seq<Event>) {
    exists k :: 0 <= k < |events| && events[k].InputChanged?
  }

  lemma EmittedValues(i: Instance, p: Poll)
    ensures SendsValues(Emitted(i, p)) <==> p.Success? && HasChanged(i.view, p.sample)
    ensures SendsValues(Emitted(i, p)) ==> Replay(Emitted(i, p)) == ViewOf(p.sample)
  {
    hide HasChanged, Replay;
    if p.Success? && HasChanged(i.view, p.sample) {
      var e := Emitted(i, p);
      assert e[0] == InputChanged(p.sample);
      ReplayOne(p.sample);
      if |e| == 2 {
        ReplayConcat([e[0]], [e[1]]);
        assert e == [e[0]] + [e[1]];
      } else {
        assert e == [e[0]];
      }
    }
  }

  lemma ReplayOne(s: Sample)
    ensures Replay([InputChanged(s)]) == ViewOf(s)
  {
  }

  /**
   Replaying the change events gives the instance's current values after every poll, although equal samples emit
   nothing.
   */
  lemma {:induction false} ReplayFollowsInstance(polls: seq<Poll>)
    ensures Replay(Trace(polls)) == After(polls).view
  {
    if polls != [] {
      var front, last := polls[..|polls| - 1], polls[|polls| - 1];
      hide Replay, Emitted, HasChanged, SendsValues, Disconnects;
      ReplayFollowsInstance(front);
      ReplayConcat(Trace(front), Emitted(After(front), last));
      EmittedValues(After(front), last);
      if last.Success? && !HasChanged(After(front).view, last.sample) {
        UnchangedView(After(front).view, last.sample);
      }
    }
  }

  // ---------------------------------------------------------------- the instance object

  class VmixInstance {
    var activeInput: Option<Reading>
    var previewInput: Option<Reading>
    var isStreaming: bool
    var isRecording: bool
    var inputs: nat
    var pollingFailureCount: nat
    var firstFailureAt: Option<Millis>
    var isConnected: bool
    var pollInFlight: bool
    /** What the instance has emitted. */
    var emitted: seq<Event>

    ghost function Snapshot(): Instance
      reads this
    {
      Instance(View(activeInput, previewInput, isStreaming, isRecording, inputs),
               pollingFailureCount, firstFailureAt, isConnected)
    }

    constructor ()
      ensures Snapshot() == Fresh && emitted == [] && !pollInFlight
    {
      activeInput, previewInput, isStreaming, isRecording, inputs := None, None, false, false, 0;
      pollingFailureCount, firstFailureAt, isConnected, pollInFlight, emitted := 0, None, false, false, [];
    }

    /** `pollApi`: skipped while a poll is in flight; otherwise the outcome of the request is handled. */
    method PollApi(outcome: Poll)
      modifies this
      ensures pollInFlight == old(pollInFlight)
      ensures old(pollInFlight) ==> Snapshot() == old(Snapshot()) && emitted == old(emitted)
      ensures !old(pollInFlight) ==>
                && Snapshot() == PollStep(old(Snapshot()), outcome)
                && emitted == old(emitted) + Emitted(old(Snapshot()), outcome)
    {
      if pollInFlight {
        return;
      }
      pollInFlight := true;
      match outcome {
        case Success(sample) => OnSample(sample);
        case Failure(failedAt, checkedAt) => OnFailure(failedAt, checkedAt);
      }
      pollInFlight := false;
    }

    method OnSample(sample: Sample)
      modifies this
      ensures Snapshot() == PollStep(old(Snapshot()), Success(sample)) && pollInFlight == old(pollInFlight)
      ensures emitted == old(emitted) + Emitted(old(Snapshot()), Success(sample))
    {
      var prevActive, prevPreview, prevStreaming, prevRecording, prevInputsLen :=
        activeInput, previewInput, isStreaming, isRecording, inputs;
      activeInput, previewInput := Some(sample.active), Some(sample.preview);
      isStreaming, isRecording, inputs := sample.isStreaming, sample.isRecording, sample.inputs;
      var hasChanged :=
        Differs(prevActive, sample.active) || Differs(prevPreview, sample.preview)
        || prevStreaming != isStreaming || prevRecording != isRecording || prevInputsLen != inputs;
      assert hasChanged == HasChanged(old(Snapshot().view), sample);
      hide HasChanged, Differs;
      if hasChanged {
        emitted := emitted + [InputChanged(sample)];
      }
      if !isConnected {
        isConnected := true;
        emitted := emitted + [ConnectionState(true)];
      }
      pollingFailureCount := 0;
      firstFailureAt := None;
    }

    method OnFailure(failedAt: Millis, checkedAt: Millis)
      modifies this
      ensures Snapshot() == PollStep(old(Snapshot()), Failure(failedAt, checkedAt)) && pollInFlight == old(pollInFlight)
      ensures emitted == old(emitted) + Emitted(old(Snapshot()), Failure(failedAt, checkedAt))
    {
      pollingFailureCount := pollingFailureCount + 1;
      if firstFailureAt.None? {
        firstFailureAt := Some(failedAt);
      }
      var failureWindowMs := checkedAt - firstFailureAt.value;
      if isConnected && pollingFailureCount >= DISCONNECT_AFTER_FAILURES && failureWindowMs >= DISCONNECT_AFTER_MS {
        isConnected := false;
        emitted := emitted + [ConnectionState(false)];
      }
    }
  }

  // ---------------------------------------------------------------- getApiUrl

  /** The white space and line ends that `trim` removes. */
  predicate IsSpace(c: char) {
    '\t' <= c <= '\r' || c == ' ' || c == '\U{A0}' || c == '\U{1680}' || '\U{2000}' <= c <= '\U{200A}'
    || c == '\U{2028}' || c == '\U{2029}' || c == '\U{202F}' || c == '\U{205F}' || c == '\U{3000}' || c == '\U{FEFF}'
  }

  function TrimStart(s: string): string {
    if s != [] && IsSpace(s[0]) then TrimStart(s[1..]) else s
  }

  function TrimEnd(s: string): string {
    if s != [] && IsSpace(s[|s| - 1]) then TrimEnd(s[..|s| - 1]) else s
  }

  function StripSlashes(s: string): string {
    if s != [] && s[|s| - 1] == '/' then StripSlashes(s[..|s| - 1]) else s
  }

  predicate EndsWith(s: string, suffix: string) {
    |suffix| <= |s| && s[|s| - |suffix|..] == suffix
  }

  function GetApiUrl(baseUrl: string): string {
    var trimmed := TrimEnd(TrimStart(baseUrl));
    var url := StripSlashes(if "http" <= trimmed then trimmed else "http://" + trimmed);
    if EndsWith(url, "/api") then url else url + "/api"
  }

  lemma {:induction false} StripKeepsScheme(s: string)
    requires "http" <= s
    ensures "http" <= StripSlashes(s)
  {
    if s[|s| - 1] == '/' {
      assert s[3] == 'p';
      StripKeepsScheme(s[..|s| - 1]);
    }
  }

  /** An address from the scheme to the suffix has nothing to trim, to add or to strip. */
  lemma NormalisedIsFixed(url: string)
    requires "http" <= url && EndsWith(url, "/api")
    ensures GetApiUrl(url) == url
  {
  }

  /** Nothing to trim, to strip or to complete but, possibly, the scheme and the suffix. */
  predicate IsPlain(h: string) {
    h != [] && !IsSpace(h[0]) && !IsSpace(h[|h| - 1]) && h[|h| - 1] != '/'
  }

  /**
   A plain address gets "http://" unless it starts with "http", and "/api" unless it ends so; the address "api" counts
   as ending so, since the slash of the scheme comes before it.
   */
  lemma ApiUrlOfPlain(h: string)
    requires IsPlain(h)
    ensures GetApiUrl(h) ==
            (if "http" <= h then h else "http://" + h) + (if EndsWith(h, "/api") || h == "api" then "" else "/api")
  {
    assert "http" <= h ==> h[0] == "http"[0];
    var full := if "http" <= h then h else "http://" + h;
    assert full[|full| - 1] == h[|h| - 1];
    assert TrimStart(h) == h && TrimEnd(h) == h && StripSlashes(full) == full;
    PlainEnd(h);
    assert full + "" == full;
  }

  lemma PlainEnd(h: string)
    requires h != []
    ensures EndsWith("http://" + h, "/api") <==> EndsWith(h, "/api") || h == "api"
  {
    var scheme := "http://";
    var full := scheme + h;
    EndsInApi(full);
    EndsInApi(h);
    hide EndsWith;
    assert forall k :: 7 <= k < |full| ==> full[k] == h[k - 7];
    assert |h| <= 3 ==> full[|full| - 4] == scheme[3 + |h|];
  }

  lemma EndsInApi(s: string)
    ensures EndsWith(s, "/api") <==>
            |s| >= 4 && s[|s| - 4] == '/' && s[|s| - 3] == 'a' && s[|s| - 2] == 'p' && s[|s| - 1] == 'i'
  {
    if |s| >= 4 {
      var tail, suffix := s[|s| - 4..], "/api";
      assert tail == suffix <==> forall k :: 0 <= k < 4 ==> tail[k] == suffix[k];
      assert forall k :: 0 <= k < 4 ==> tail[k] == s[|s| - 4 + k];
    }
  }

  predicate OnlySpaces(s: string) {
    forall k :: 0 <= k < |s| ==> IsSpace(s[k])
  }

  lemma {:induction false} TrimStartDrops(a: string, t: string)
    requires OnlySpaces(a) && t != [] && !IsSpace(t[0])
    ensures TrimStart(a + t) == t
  {
    if a == [] {
      assert a + t == t;
    } else {
      TrimStartDrops(a[1..], t);
      assert (a + t)[1..] == a[1..] + t;
    }
  }

  lemma {:induction false} TrimEndDrops(t: string, b: string)
    requires OnlySpaces(b) && t != [] && !IsSpace(t[|t| - 1])
    ensures TrimEnd(t + b) == t
  {
    if b == [] {
      assert t + b == t;
    } else {
      TrimEndDrops(t, b[..|b| - 1]);
      assert (t + b)[..|t + b| - 1] == t + b[..|b| - 1];
    }
  }

  lemma {:induction false} StripDrops(t: string, b: string)
    requires OnlySlashes(b) && t != [] && t[|t| - 1] != '/'
    ensures StripSlashes(t + b) == t
  {
    if b == [] {
      assert t + b == t;
    } else {
      StripDrops(t, b[..|b| - 1]);
      assert (t + b)[..|t + b| - 1] == t + b[..|b| - 1];
    }
  }

  /** Spaces around an address and slashes behind it do not matter. */
  lemma ApiUrlIgnoresDressing(a: string, h: string, slashes: string, b: string)
    requires IsPlain(h) && OnlySpaces(a) && OnlySlashes(slashes) && OnlySpaces(b)
    ensures GetApiUrl(a + h + slashes + b) == GetApiUrl(h)
  {
    TrimDrops(a, h, slashes, b);
    TrimDrops([], h, [], []);
    assert [] + h + [] + [] == h && h + [] == h;
    hide IsSpace, TrimStart, TrimEnd, IsPlain;
    var full := if "http" <= h then h else "http://" + h;
    SlashesAreNoHttp(h, slashes);
    StripDrops(full, slashes);
    StripDrops(full, []);
    assert full + [] == full && "http://" + (h + slashes) == "http://" + h + slashes;
  }

  /** An IP address and a port, with blanks around and a slash behind, becomes the URL of their API. */
  lemma ApiUrlOfHost(h: string)
    requires h != [] && forall k :: 0 <= k < |h| ==> '0' <= h[k] <= '9' || h[k] == '.' || h[k] == ':'
    ensures GetApiUrl(" " + h + "/" + "\n") == "http://" + h + "/api"
  {
    assert |h| >= 4 ==> h[0] != "http"[0] && h[|h| - 4..][0] != "/api"[0];
    assert |h| == 3 ==> h[0] != "api"[0];
    hide GetApiUrl, EndsWith;
    ApiUrlIgnoresDressing(" ", h, "/", "\n");
    ApiUrlOfPlain(h);
    assert "http://" + h + "/api" == ("http://" + h) + "/api";
  }

  lemma TrimDrops(a: string, h: string, slashes: string, b: string)
    requires IsPlain(h) && OnlySpaces(a) && OnlySlashes(slashes) && OnlySpaces(b)
    ensures TrimEnd(TrimStart(a + h + slashes + b)) == h + slashes
    ensures h != [] && h[|h| - 1] != '/'
  {
    hide IsSpace, TrimStart, TrimEnd;
    var address := h + slashes;
    NoSpaceInside(h, slashes);
    assert (address + b)[0] == address[0];
    TrimStartDrops(a, address + b);
    TrimEndDrops(address, b);
    Associative(a, h, slashes);
    Associative(a, address, b);
  }

  lemma Associative(a: string, b: string, c: string)
    ensures a + b + c == a + (b + c)
  {
  }

  lemma NoSpaceInside(h: string, slashes: string)
    requires IsPlain(h) && OnlySlashes(slashes)
    ensures !IsSpace((h + slashes)[0]) && !IsSpace((h + slashes)[|h + slashes| - 1])
  {
  }

  lemma SlashesAreNoHttp(h: string, slashes: string)
    requires OnlySlashes(slashes)
    ensures "http" <= h + slashes <==> "http" <= h
  {
    var t, p := h + slashes, "http";
    assert forall k :: 0 <= k < |h| ==> t[k] == h[k];
    assert |h| < 4 && |t| >= 4 ==> t[|h|] == '/' != p[|h|];
  }

  predicate OnlySlashes(s: string) {
    forall k :: 0 <= k < |s| ==> s[k] == '/'
  }

  predicate HasScheme(url: string) {
    "http://" <= url || "https://" <= url
  }

  /** The trimmed address names something: after its scheme, or without one if it does not begin with "http". */
  predicate NamesHost(trimmed: string) {
    if "http://" <= trimmed then !OnlySlashes(trimmed[7..])
    else if "https://" <= trimmed then !OnlySlashes(trimmed[8..])
    else !("http" <= trimmed) && !OnlySlashes(trimmed)
  }

  lemma {:induction false} StripSplits(s: string)
    ensures StripSlashes(s) <= s && OnlySlashes(s[|StripSlashes(s)|..])
    ensures StripSlashes(s) == [] || StripSlashes(s)[|StripSlashes(s)| - 1] != '/'
  {
    if s != [] && s[|s| - 1] == '/' {
      var front := s[..|s| - 1];
      StripSplits(front);
      assert s[|StripSlashes(s)|..] == front[|StripSlashes(s)|..] + ['/'];
    }
  }

  /** Stripping keeps a scheme exactly if something other than slashes follows it. */
  lemma StripKeepsPrefix(s: string, scheme: string)
    requires scheme <= s && scheme != [] && scheme[|scheme| - 1] == '/'
    ensures scheme <= StripSlashes(s) <==> !OnlySlashes(s[|scheme|..])
  {
    StripSplits(s);
    var t := StripSlashes(s);
    if scheme <= t {
      assert t[|t| - 1] == s[|scheme|..][|t| - 1 - |scheme|];
    } else {
      assert |t| < |scheme|;
      forall k | 0 <= k < |s| - |scheme| ensures s[|scheme|..][k] == '/' {
        assert s[|t|..][|scheme| + k - |t|] == s[|scheme| + k];
      }
    }
  }

  /** The suffix does not complete a scheme. */
  lemma SuffixAddsNoScheme(t: string, scheme: string)
    requires t == [] || t[|t| - 1] != '/'
    requires scheme == "http://" || scheme == "https://"
    ensures scheme <= t + "/api" <==> scheme <= t
  {
    var u, n := t + "/api", |scheme|;
    assert forall k :: 0 <= k < |t| ==> u[k] == t[k];
    assert u[|t|] == '/' && u[|t| + 1] == 'a' && (|t| > 0 ==> u[|t| - 1] != '/');
    assert scheme[n - 1] == '/' && scheme[n - 2] == '/' && forall k :: 0 <= k < n - 2 ==> scheme[k] != '/';
    if |t| < n {
      assert |t| == n - 1 ==> u[n - 2] != scheme[n - 2];
      assert |t| == n - 2 ==> u[n - 1] != scheme[n - 1];
      assert |t| < n - 2 ==> u[|t|] != scheme[|t|];
    }
  }

  lemma ResultHasScheme(baseUrl: string)
    ensures var trimmed := TrimEnd(TrimStart(baseUrl));
            HasScheme(GetApiUrl(baseUrl)) <==>
            HasScheme(StripSlashes(if "http" <= trimmed then trimmed else "http://" + trimmed))
  {
    var trimmed := TrimEnd(TrimStart(baseUrl));
    var full := if "http" <= trimmed then trimmed else "http://" + trimmed;
    hide TrimStart, TrimEnd, StripSlashes, OnlySlashes;
    StripSplits(full);
    SuffixAddsNoScheme(StripSlashes(full), "http://");
    SuffixAddsNoScheme(StripSlashes(full), "https://");
  }

  lemma SchemeImpliesHttp(s: string)
    ensures HasScheme(s) ==> "http" <= s
    ensures !("http://" <= s && "https://" <= s)
  {
    var a, b, c := "http", "http://", "https://";
    assert a <= b && a <= c && b[4] != c[4];
    assert b <= s ==> s[4] == b[4];
    assert c <= s ==> s[4] == c[4];
  }

  /** "http" is taken for a scheme: the result has a real one exactly if the trimmed address names a host. */
  lemma ApiUrlHasSchemeIff(baseUrl: string)
    ensures HasScheme(GetApiUrl(baseUrl)) <==> NamesHost(TrimEnd(TrimStart(baseUrl)))
  {
    var trimmed := TrimEnd(TrimStart(baseUrl));
    var full := if "http" <= trimmed then trimmed else "http://" + trimmed;
    hide TrimStart, TrimEnd, StripSlashes, OnlySlashes, GetApiUrl;
    ResultHasScheme(baseUrl);
    SchemeSurvives(full);
    SchemeImpliesHttp(trimmed);
    SchemeImpliesHttp(full);
    if !("http" <= trimmed) {
      assert "http://" <= full && full[7..] == trimmed;
    }
  }

  lemma SchemeSurvives(full: string)
    ensures HasScheme(StripSlashes(full)) <==>
            ("http://" <= full && !OnlySlashes(full[7..])) || ("https://" <= full && !OnlySlashes(full[8..]))
  {
    hide StripSlashes, OnlySlashes;
    StripSplits(full);
    var t := StripSlashes(full);
    if "http://" <= full {
      StripKeepsPrefix(full, "http://");
    }
    if "https://" <= full {
      StripKeepsPrefix(full, "https://");
    }
  }

  /** Every address comes to start with "http" and to end in the suffix, and a normalised one stays as it is. */
  lemma ApiUrlIsStable(baseUrl: string)
    ensures var url := GetApiUrl(baseUrl); "http" <= url && EndsWith(url, "/api") && GetApiUrl(url) == url
  {
    var trimmed := TrimEnd(TrimStart(baseUrl));
    var full := if "http" <= trimmed then trimmed else "http://" + trimmed;
    hide TrimStart, TrimEnd, StripSlashes;
    StripKeepsScheme(full);
    NormalisedIsFixed(GetApiUrl(baseUrl));
  }
}
