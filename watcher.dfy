/**
 * The VPN watcher of Watcher/watcher.py. It probes the address under which
 * the host reaches the internet and compares it with the user's own address
 * (`myip`). A two-valued `vpnState` remembers whether the tunnel was last
 * seen broken (1) or working (0), so that a notification goes out only when
 * that state flips, never while it stays the same.
 *
 * The probe is an input (`Probe`). Log lines and notifications are recorded
 * as events in ghost state instead of being written or posted.
 */
module Watcher {
  import opened Builtins

  type Environ = map<string, string>
  type Data = map<string, string>

  const Required: seq<string> := ["user", "token", "ip", "pushover"]

  const PushoverKeywords: seq<string> := [
    "user", "token", "title", "priority", "url", "url_title", "device",
    "retry", "expire", "html", "attachment", "sound", "callback", "timestamp"
  ]

  /** Seconds between two probes when the environment sets no `timer`. */
  const DefaultTimer: int := 360

  const MissingText: string := "Missing required invironment variable(s)."
  const TestingText: string := "Testing Pushover connection. You should recieve a message shortly."
  const ConfirmText: string := "This message confirms Pushover is configured correctly."
  const NoTunnelText: string := "No connection through VPN Tunnel."
  const ExposedText: string := "Your IP is being exposed / VPN Tunnel not working properly."

  function NormalText(ip: string): string {
    "Everything seems to be normal, VPN IP: " + ip
  }

  /** What the watcher does to the outside world: a log line, or a notification posted to `url`. */
  datatype Event = Logged(text: string) | Sent(url: string, data: Data)

  function Sends(events: seq<Event>): nat {
    if events == [] then 0 else (if events[0].Sent? then 1 else 0) + Sends(events[1..])
  }

  function Logs(events: seq<Event>): nat {
    if events == [] then 0 else (if events[0].Logged? then 1 else 0) + Logs(events[1..])
  }

  lemma {:induction false} CountsAppend(a: seq<Event>, b: seq<Event>)
    ensures Sends(a + b) == Sends(a) + Sends(b)
    ensures Logs(a + b) == Logs(a) + Logs(b)
  {
    if a == [] {
      assert a + b == b;
    } else {
      CountsAppend(a[1..], b);
      assert (a + b)[0] == a[0];
      assert (a + b)[1..] == a[1..] + b;
    }
  }

  lemma NoticeCounts(text: string, url: string, d: Data)
    ensures Sends([Logged(text)]) == 0 && Logs([Logged(text)]) == 1
    ensures Sends([Logged(text), Sent(url, d)]) == 1 && Logs([Logged(text), Sent(url, d)]) == 1
  {
    assert [Logged(text), Sent(url, d)][1..] == [Sent(url, d)];
    assert [Sent(url, d)][1..] == [];
  }

  // ---------------------------------------------------------------------------
  // verify_input: the server address
  // ---------------------------------------------------------------------------

  /** The scheme is added unless "http" occurs somewhere in the address. */
  function WithScheme(u: string): string {
    if !Contains(u, "http") then "http://" + u else u
  }

  /** The path is added unless "push" occurs somewhere in the address. */
  function WithPath(u: string): string {
    if !Contains(u, "push") then u + "/push" else u
  }

  /** The server address as verify_input leaves it. */
  function Normalised(u: string): string {
    WithPath(WithScheme(u))
  }

  /** The added scheme cannot create or complete an occurrence of "push". */
  lemma SchemeAddsNoPush(u: string)
    ensures Contains("http://" + u, "push") <==> Contains(u, "push")
  {
    var s := "http://" + u;
    if Contains(u, "push") {
      var i :| 0 <= i <= |u| && OccursAt(u, "push", i);
      assert s[i + 7..i + 11] == u[i..i + 4];
      assert OccursAt(s, "push", i + 7);
    }
    if Contains(s, "push") {
      var i :| 0 <= i <= |s| && OccursAt(s, "push", i);
      assert s[i] == 'p' && s[i + 1] == 'u' by {
        assert s[i..i + 4][0] == s[i] && s[i..i + 4][1] == s[i + 1];
      }
      assert i >= 7;
      assert u[i - 7..i - 3] == s[i..i + 4];
      assert OccursAt(u, "push", i - 7);
    }
  }

  /**
   * The address gets the "http://" prefix exactly when "http" does not
   * occur in it, and the "/push" suffix exactly when "push" does not.
   */
  lemma NormalisedShape(u: string)
    ensures Normalised(u) ==
      (if Contains(u, "http") then "" else "http://") + u + (if Contains(u, "push") then "" else "/push")
  {
    SchemeAddsNoPush(u);
  }

  /** Both words occur in a normalised address. */
  lemma NormalisedHasBoth(u: string)
    ensures Contains(Normalised(u), "http") && Contains(Normalised(u), "push")
  {
    var v := WithScheme(u);
    if Contains(u, "http") {
      assert v == u;
    } else {
      assert v == "http" + ("://" + u);
      ContainsAtStart("http", "://" + u);
    }
    assert Contains(v, "http");
    if Contains(v, "push") {
      assert Normalised(u) == v;
    } else {
      assert Normalised(u) == v + "/" + "push";
      ContainsAppend(v, "/push", "http");
      ContainsAtEnd(v + "/", "push");
    }
  }

  /** Normalising a second time changes nothing. */
  lemma NormalisedIdempotent(u: string)
    ensures Normalised(Normalised(u)) == Normalised(u)
  {
    NormalisedHasBoth(u);
  }

  // ---------------------------------------------------------------------------
  // verify_input: the environment
  // ---------------------------------------------------------------------------

  predicate HasRequired(environ: Environ) {
    forall k | k in Required :: k in environ
  }

  /** verify_input runs to its end: the required variables are there and `timer`, if set, is a number. */
  predicate Configurable(environ: Environ) {
    HasRequired(environ) && ("timer" in environ ==> ParseInt(environ["timer"]).Some?)
  }

  /** The seconds between probes: the `timer` variable, or 360 when it is not set. */
  function TimerSetting(environ: Environ): int
    requires Configurable(environ)
  {
    if "timer" in environ then ParseInt(environ["timer"]).value else DefaultTimer
  }

  /** Copying, key by key in order, the variables among `keys` that the environment sets. */
  function Whitelist(environ: Environ, keys: seq<string>): Data
    decreases |keys|
  {
    if keys == [] then map[]
    else
      var before := Whitelist(environ, keys[..|keys| - 1]);
      var k := keys[|keys| - 1];
      if k in environ then before[k := environ[k]] else before
  }

  /** Exactly the listed variables the environment sets are copied, each with its value. */
  lemma {:induction false} WhitelistContents(environ: Environ, keys: seq<string>)
    ensures forall k :: k in Whitelist(environ, keys) <==> k in keys && k in environ
    ensures forall k :: k in Whitelist(environ, keys) ==> Whitelist(environ, keys)[k] == environ[k]
    decreases |keys|
  {
    if keys != [] {
      var init := keys[..|keys| - 1];
      WhitelistContents(environ, init);
      assert keys == init + [keys[|keys| - 1]];
    }
  }

  // ---------------------------------------------------------------------------
  // watch: the transition table
  // ---------------------------------------------------------------------------

  /** The outcome of one probe of the external address. */
  datatype Probe = ConnectionError | Address(ip: string)

  /** How watch reads a probe. */
  datatype Reading = Unreachable | Exposed | Normal

  function Classify(probe: Probe, myip: string): (r: Reading)
    ensures r == Unreachable <==> probe.ConnectionError?
    ensures r == Normal <==> probe.Address? && probe.ip != myip
  {
    match probe
    case ConnectionError => Unreachable
    case Address(ip) => if myip == ip then Exposed else Normal
  }

  /** The state a reading leads to: only a foreign address means the tunnel works. */
  function Target(r: Reading): int {
    if r == Normal then 0 else 1
  }

  /** What one call of watch leaves behind: the new state and data, and the events it caused. */
  datatype Tick = Tick(state: int, data: Data, events: seq<Event>)

  /** One call of Watcher.watch. */
  function Step(state: int, data: Data, url: string, myip: string, probe: Probe): (r: Tick)
    requires "message" in data
    ensures "message" in r.data
    ensures r.data.Keys == data.Keys && forall k :: k in data && k != "message" ==> r.data[k] == data[k]
    ensures state == 0 || state == 1 ==>
      && r.state == Target(Classify(probe, myip))
      && Sends(r.events) == (if r.state != state then 1 else 0)
      && Logs(r.events) == 1
      && r.events[0] == Logged(r.data["message"])
      && (Sends(r.events) == 1 ==> r.events == [Logged(r.data["message"]), Sent(url, r.data)])
    ensures state != 0 && state != 1 ==> r.state == state && r.events == []
    ensures probe.ConnectionError? && state == 0 ==> r.data["message"] == NoTunnelText
    ensures probe.ConnectionError? && state != 0 ==> r.data == data
    ensures probe.Address? ==>
      r.data["message"] == if myip == probe.ip then ExposedText else NormalText(probe.ip)
  {
    match probe
    case ConnectionError =>
      if state == 0 then
        var d := data["message" := NoTunnelText];
        NoticeCounts(d["message"], url, d);
        Tick(1, d, [Logged(d["message"]), Sent(url, d)])
      else if state == 1 then
        NoticeCounts(data["message"], url, data);
        Tick(1, data, [Logged(data["message"])])
      else
        Tick(state, data, [])
    case Address(ip) =>
      var d := data["message" := if myip == ip then ExposedText else NormalText(ip)];
      NoticeCounts(d["message"], url, d);
      if myip == ip then
        if state == 0 then Tick(1, d, [Logged(d["message"]), Sent(url, d)])
        else if state == 1 then Tick(1, d, [Logged(d["message"])])
        else Tick(state, d, [])
      else
        if state == 1 then Tick(0, d, [Logged(d["message"]), Sent(url, d)])
        else if state == 0 then Tick(0, d, [Logged(d["message"])])
        else Tick(state, d, [])
  }

  /** Calling watch once per probe, in order. */
  function Run(state: int, data: Data, url: string, myip: string, probes: seq<Probe>): (r: Tick)
    requires "message" in data
    ensures "message" in r.data
    decreases |probes|
  {
    if probes == [] then Tick(state, data, [])
    else
      var first := Step(state, data, url, myip, probes[0]);
      var rest := Run(first.state, first.data, url, myip, probes[1..]);
      Tick(rest.state, rest.data, first.events + rest.events)
  }

  /** One more probe at the end of a run is one more step after it. */
  lemma {:induction false} RunSnoc(state: int, data: Data, url: string, myip: string, probes: seq<Probe>, p: Probe)
    requires "message" in data
    ensures var before := Run(state, data, url, myip, probes);
      var last := Step(before.state, before.data, url, myip, p);
      Run(state, data, url, myip, probes + [p]) == Tick(last.state, last.data, before.events + last.events)
    decreases |probes|
  {
    if probes == [] {
      assert [p][1..] == [];
    } else {
      var first := Step(state, data, url, myip, probes[0]);
      assert (probes + [p])[1..] == probes[1..] + [p];
      RunSnoc(first.state, first.data, url, myip, probes[1..], p);
    }
  }

  /** How watch reads each probe of a sequence. */
  function Readings(probes: seq<Probe>, myip: string): seq<Reading> {
    seq(|probes|, i requires 0 <= i < |probes| => Classify(probes[i], myip))
  }

  /** How often the state sequence s0, Target(rs[0]), Target(rs[1]), ... changes its value. */
  function Flips(s0: int, rs: seq<Reading>): nat
    decreases |rs|
  {
    if rs == [] then 0
    else (if Target(rs[0]) != s0 then 1 else 0) + Flips(Target(rs[0]), rs[1..])
  }

  /**
   * Over any sequence of probes, watch sends exactly one notification per
   * change of state and writes exactly one log line per probe.
   */
  lemma {:induction false} RunSendsOncePerFlip(state: int, data: Data, url: string, myip: string, probes: seq<Probe>)
    requires state == 0 || state == 1
    requires "message" in data
    ensures Sends(Run(state, data, url, myip, probes).events) == Flips(state, Readings(probes, myip))
    ensures Logs(Run(state, data, url, myip, probes).events) == |probes|
    ensures Run(state, data, url, myip, probes).state ==
      if probes == [] then state else Target(Classify(probes[|probes| - 1], myip))
    decreases |probes|
  {
    if probes != [] {
      var first := Step(state, data, url, myip, probes[0]);
      var rest := Run(first.state, first.data, url, myip, probes[1..]);
      RunSendsOncePerFlip(first.state, first.data, url, myip, probes[1..]);
      CountsAppend(first.events, rest.events);
      assert Readings(probes, myip)[1..] == Readings(probes[1..], myip);
    }
  }

  /** A run of readings of one kind flips the state at most once, on its first reading. */
  lemma {:induction false} FlipsSteady(s0: int, rs: seq<Reading>, c: Reading)
    requires forall i :: 0 <= i < |rs| ==> rs[i] == c
    ensures Flips(s0, rs) == if rs != [] && Target(c) != s0 then 1 else 0
    decreases |rs|
  {
    if rs != [] {
      FlipsSteady(Target(c), rs[1..], c);
    }
  }

  /**
   * However long the same kind of outcome persists (a sustained outage, an
   * exposed address), watch notifies at most once: on the first probe, and
   * only if that changes the state.
   */
  lemma SteadyProbesNotifyOnce(state: int, data: Data, url: string, myip: string, probes: seq<Probe>, c: Reading)
    requires state == 0 || state == 1
    requires "message" in data
    requires forall i :: 0 <= i < |probes| ==> Classify(probes[i], myip) == c
    ensures Sends(Run(state, data, url, myip, probes).events) ==
      if probes != [] && Target(c) != state then 1 else 0
  {
    RunSendsOncePerFlip(state, data, url, myip, probes);
    FlipsSteady(state, Readings(probes, myip), c);
  }

  /** Three exposed readings then two normal ones, from a working tunnel: two notifications in five probes. */
  lemma ExposedThenRecovered(data: Data, url: string, myip: string, vpnip: string)
    requires "message" in data && vpnip != myip
    ensures
      var probes := [Address(myip), Address(myip), Address(myip), Address(vpnip), Address(vpnip)];
      Sends(Run(0, data, url, myip, probes).events) == 2
  {
    var probes := [Address(myip), Address(myip), Address(myip), Address(vpnip), Address(vpnip)];
    RunSendsOncePerFlip(0, data, url, myip, probes);
    var rs := [Exposed, Exposed, Exposed, Normal, Normal];
    assert Readings(probes, myip) == rs;
    assert rs[1..][1..][1..][1..][1..] == [];
    assert Flips(0, rs[1..][1..][1..][1..]) == 0;
    assert Flips(1, rs[1..][1..][1..]) == 1;
    assert Flips(1, rs[1..][1..]) == 1;
    assert Flips(1, rs[1..]) == 1;
  }

  // ---------------------------------------------------------------------------
  // The watcher object
  // ---------------------------------------------------------------------------

  class Watcher {
    const environ: Environ
    var vpnState: int
    var data: Data
    var myip: string
    var url: string
    var timer: int
    /** Construction ran to its end without an exception. */
    var configured: bool
    /** Every log line and notification so far. */
    ghost var events: seq<Event>
    /** The events of the set-up, before the first probe. */
    ghost var setupEvents: seq<Event>
    /** The data at the end of the set-up. */
    ghost var setupData: Data
    /** Every probe outcome watch has seen. */
    ghost var history: seq<Probe>

    /** The object invariant: the state, data and events are those of running watch over the history. */
    ghost predicate Valid()
      reads this
    {
      && configured
      && (vpnState == 0 || vpnState == 1)
      && "message" in setupData
      && var run := Run(0, setupData, url, myip, history);
         vpnState == run.state && data == run.data && events == setupEvents + run.events
    }

    /**
     * Reads the environment and sends the start-up test notification. When
     * a required variable is missing, test_pushover still runs and fails in
     * send_pushover, which reads the never-set `url`; when `timer` is not a
     * number, verify_input fails in `int()` before test_pushover starts.
     * Either way no watcher comes into use, which `configured` records.
     */
    constructor (environ: Environ)
      ensures this.environ == environ && vpnState == 0 && history == []
      ensures configured <==> Configurable(environ)
      ensures !HasRequired(environ) ==> events == [Logged(MissingText), Logged(TestingText)]
      ensures HasRequired(environ) && !configured ==> events == []
      ensures configured ==> Valid()
      ensures configured ==> myip == environ["ip"] && url == Normalised(environ["pushover"])
      ensures configured ==> timer == TimerSetting(environ)
      ensures configured ==> data == Whitelist(environ, PushoverKeywords)["message" := ConfirmText]
      ensures configured ==> events == [Logged(TestingText), Sent(url, data)]
    {
      this.environ := environ;
      vpnState := 0;
      data := map[];
      myip, url, timer := "", "", 0;
      configured := false;
      events := [];
      history := [];
      new;
      VerifyInput();
      if configured {
        TestPushover();
        Start();
      } else if !HasRequired(environ) {
        AbortedTest();
      }
    }

    /** The state after the set-up becomes the start of every run. */
    ghost method Start()
      requires configured && vpnState == 0 && history == [] && "message" in data
      modifies this`setupEvents, this`setupData
      ensures Valid() && setupEvents == events && setupData == data
    {
      setupEvents := events;
      setupData := data;
      assert events == setupEvents + [];
    }

    method DockerLog(text: string)
      modifies this`events
      ensures events == old(events) + [Logged(text)]
    {
      events := events + [Logged(text)];
    }

    method SendPushover()
      modifies this`events
      ensures events == old(events) + [Sent(url, data)]
    {
      events := events + [Sent(url, data)];
    }

    /** Copies the configuration out of the environment. */
    method VerifyInput()
      modifies this`myip, this`url, this`data, this`timer, this`configured, this`events
      ensures !HasRequired(environ) ==>
        && events == old(events) + [Logged(MissingText)]
        && unchanged(this`myip, this`url, this`data, this`timer, this`configured)
      ensures HasRequired(environ) ==>
        && events == old(events)
        && configured == Configurable(environ)
        && myip == environ["ip"]
        && url == Normalised(environ["pushover"])
        && data == old(data) + Whitelist(environ, PushoverKeywords)
        && (configured ==> timer == TimerSetting(environ))
    {
      if !HasRequired(environ) {
        DockerLog(MissingText);
      } else {
        myip := environ["ip"];
        url := environ["pushover"];
        url := if !Contains(url, "http") then "http://" + url else url;
        url := if !Contains(url, "push") then url + "/push" else url;
        CopyKeywords();
        if "timer" in environ {
          match ParseInt(environ["timer"]) {
            case Some(n) =>
              timer := n;
              configured := true;
            case None =>
              configured := false;
          }
        } else {
          timer := DefaultTimer;
          configured := true;
        }
      }
    }

    /** The keyword loop of verify_input. */
    method CopyKeywords()
      modifies this`data
      ensures data == old(data) + Whitelist(environ, PushoverKeywords)
    {
      for i := 0 to |PushoverKeywords|
        invariant data == old(data) + Whitelist(environ, PushoverKeywords[..i])
      {
        var keyword := PushoverKeywords[i];
        assert PushoverKeywords[..i + 1][..i] == PushoverKeywords[..i];
        if keyword in environ {
          data := data[keyword := environ[keyword]];
        }
      }
      assert PushoverKeywords[..|PushoverKeywords|] == PushoverKeywords;
    }

    /**
     * test_pushover without an address: it logs and sets its message, and
     * then send_pushover fails on reading the never-set `url`.
     */
    method AbortedTest()
      modifies this`data, this`events
      ensures data == old(data)["message" := ConfirmText]
      ensures events == old(events) + [Logged(TestingText)]
    {
      DockerLog(TestingText);
      data := data["message" := ConfirmText];
    }

    /** The start-up notification that shows the notification path works. */
    method TestPushover()
      modifies this`data, this`events
      ensures data == old(data)["message" := ConfirmText]
      ensures events == old(events) + [Logged(TestingText), Sent(url, data)]
    {
      DockerLog(TestingText);
      data := data["message" := ConfirmText];
      SendPushover();
    }

    /** The body of watch: one step of the transition table. */
    method Respond(probe: Probe)
      requires "message" in data
      modifies this`vpnState, this`data, this`events
      ensures var step := Step(old(vpnState), old(data), url, myip, probe);
        vpnState == step.state && data == step.data && events == old(events) + step.events
    {
      match probe {
        case ConnectionError =>
          if vpnState == 0 {
            data := data["message" := NoTunnelText];
            DockerLog(data["message"]);
            SendPushover();
            vpnState := 1;
          } else if vpnState == 1 {
            DockerLog(data["message"]);
          }
        case Address(ip) =>
          if myip == ip {
            data := data["message" := ExposedText];
            if vpnState == 0 {
              DockerLog(data["message"]);
              SendPushover();
              vpnState := 1;
            } else if vpnState == 1 {
              DockerLog(data["message"]);
            }
          } else {
            data := data["message" := NormalText(ip)];
            if vpnState == 1 {
              DockerLog(data["message"]);
              SendPushover();
              vpnState := 0;
            } else if vpnState == 0 {
              DockerLog(data["message"]);
            }
          }
      }
    }

    /**
     * Handles one probe outcome: sets the message, logs it, and notifies
     * only when the outcome flips `vpnState`. Over the watcher's life the
     * notifications after the set-up are exactly the flips of its readings.
     */
    method Watch(probe: Probe)
      requires Valid()
      modifies this`vpnState, this`data, this`events, this`history
      ensures Valid()
      ensures history == old(history) + [probe]
      ensures var step := Step(old(vpnState), old(data), url, myip, probe);
        vpnState == step.state && data == step.data && events == old(events) + step.events
      ensures Sends(events) == Sends(setupEvents) + Flips(0, Readings(history, myip))
    {
      ghost var run := Run(0, setupData, url, myip, history);
      ghost var step := Step(vpnState, data, url, myip, probe);
      RunSnoc(0, setupData, url, myip, history, probe);
      Respond(probe);
      history := history + [probe];
      assert Run(0, setupData, url, myip, history) == Tick(step.state, step.data, run.events + step.events);
      assert events == setupEvents + (run.events + step.events);
      RunSendsOncePerFlip(0, setupData, url, myip, history);
      CountsAppend(setupEvents, Run(0, setupData, url, myip, history).events);
    }
  }
}
