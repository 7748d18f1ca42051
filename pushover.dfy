/**
 * The Pushover client of Notifier/pushover.py: building and validating the
 * parameters of a message, sending it, and the receipt state machine of an
 * emergency (priority-2) message, which is polled until the user
 * acknowledges it, it expires, or its callback is reached.
 *
 * Network traffic is not performed: every request the client would send is
 * recorded as a `Call` value, and every answer it would read is a parameter.
 */
module Pushover {
  import opened Builtins

  const BaseUrl: string := "https://api.pushover.net/1/"
  const MessageUrl: string := BaseUrl + "messages.json"
  const ReceiptUrl: string := BaseUrl + "receipts/"

  /** A value in one of the client's dictionaries (parameters, JSON answers, status). */
  datatype Value = Text(s: string) | Num(n: int) | Flag(b: bool)

  type Dict = map<string, Value>

  /** Python's `int(v)`; None where it raises ValueError. A bool counts as 0 or 1. */
  function AsInt(v: Value): (r: Option<int>)
    ensures r.None? <==> v.Text? && !IsIntLiteral(v.s)
    ensures v.Num? ==> r == Some(v.n)
    ensures v.Flag? ==> r == Some(if v.b then 1 else 0)
  {
    match v
    case Text(s) => ParseInt(s)
    case Num(n) => Some(n)
    case Flag(b) => Some(if b then 1 else 0)
  }

  // ---------------------------------------------------------------------------
  // RequestError.__str__
  // ---------------------------------------------------------------------------

  const ErrorMarker: string := "\n==> "

  /** The text of a RequestError carrying the provider's error list. */
  function Describe(errors: seq<string>): (r: string)
    ensures |ErrorMarker| <= |r| && r[..|ErrorMarker|] == ErrorMarker
  {
    ErrorMarker + Join(ErrorMarker, errors)
  }

  /** Each error on a line of its own, introduced by the marker. */
  function MarkedLines(errors: seq<string>): string
  {
    if errors == [] then "" else ErrorMarker + errors[0] + MarkedLines(errors[1..])
  }

  /** A RequestError prints every error, in order, each after the marker; no errors print the bare marker. */
  lemma {:induction false} DescribeMarksEachError(errors: seq<string>)
    ensures Describe(errors) == if errors == [] then ErrorMarker else MarkedLines(errors)
  {
    if |errors| > 1 {
      DescribeMarksEachError(errors[1..]);
      assert Describe(errors) == ErrorMarker + errors[0] + Describe(errors[1..]);
    }
  }

  // ---------------------------------------------------------------------------
  // Request.__init__: what goes out on the wire
  // ---------------------------------------------------------------------------

  datatype Verb = Get | Post

  /** One request as Request.__init__ sends it: query parameters and uploaded files. */
  datatype Call = Call(verb: Verb, url: string, params: Dict, files: Dict)

  /** Request.__init__ moves an `attachment` entry of the payload into the files. */
  function Prepare(verb: Verb, url: string, payload: Dict): (c: Call)
    ensures c.verb == verb && c.url == url
    ensures c.params.Keys == payload.Keys - {"attachment"}
    ensures forall k :: k in c.params ==> c.params[k] == payload[k]
    ensures c.files.Keys == payload.Keys * {"attachment"}
    ensures forall k :: k in c.files ==> c.files[k] == payload[k]
  {
    var files := if "attachment" in payload then map["attachment" := payload["attachment"]] else map[];
    Call(verb, url, payload - {"attachment"}, files)
  }

  /** Splitting loses nothing: parameters and files are disjoint and together give the payload back. */
  lemma PrepareRecombines(verb: Verb, url: string, payload: Dict)
    ensures Prepare(verb, url, payload).params.Keys !! Prepare(verb, url, payload).files.Keys
    ensures Prepare(verb, url, payload).params + Prepare(verb, url, payload).files == payload
  {
    var c := Prepare(verb, url, payload);
    assert forall k :: k in payload <==> k in c.params + c.files;
  }

  // ---------------------------------------------------------------------------
  // Pushover.message: keyword validation
  // ---------------------------------------------------------------------------

  const MessageKeywords: seq<string> := [
    "user", "token", "title", "priority", "url", "url_title", "device",
    "retry", "expire", "html", "attachment", "sound", "callback", "timestamp"
  ]

  /** Pushover re-sends an emergency message at most every 30 seconds ... */
  const MinRetry: int := 30
  /** ... and for at most 10800 seconds (three hours). */
  const MaxExpire: int := 10800

  /** Why Pushover.message prints an error and returns None (a ValueError it catches). */
  datatype Rejection =
    | InvalidParameter(key: string)
    | InvalidSound(sound: Value)
    | RetryTooShort(retry: Value)
    | ExpireTooLong(expire: Value)
    | NotAnInteger(key: string, value: Value)

  /** An exception Pushover.message does not catch. */
  datatype Fault =
    | TimestampUnavailable   // NameError: `distutils` is never imported
    | ReceiptMissing         // KeyError: a priority-2 answer without "receipt"

  /** What the keyword loop does with one keyword argument. */
  datatype Verdict = Keep | Refuse(why: Rejection) | Raise(fault: Fault)

  predicate SoundKnown(v: Value, sounds: set<string>) {
    v.Text? && v.s in sounds
  }

  /** The declarative schema: the keyword arguments Pushover.message copies into its payload. */
  predicate Admissible(key: string, value: Value, sounds: set<string>) {
    && key in MessageKeywords
    && key != "timestamp"
    && (key == "sound" ==> SoundKnown(value, sounds))
    && (key == "retry" ==> AsInt(value).Some? && AsInt(value).value >= MinRetry)
    && (key == "expire" ==> AsInt(value).Some? && AsInt(value).value <= MaxExpire)
  }

  /** One round of the keyword loop of Pushover.message: its if/elif chain. */
  function Screen(key: string, value: Value, sounds: set<string>): (v: Verdict)
    ensures v == Keep <==> Admissible(key, value, sounds)
    ensures v == Refuse(InvalidParameter(key)) <==> key !in MessageKeywords
    ensures v.Raise? <==> key == "timestamp"
    ensures v.Raise? ==> v.fault == TimestampUnavailable
    ensures v == Refuse(InvalidSound(value)) <==> key == "sound" && !SoundKnown(value, sounds)
    ensures v == Refuse(NotAnInteger(key, value)) <==> (key == "retry" || key == "expire") && AsInt(value).None?
    ensures v == Refuse(RetryTooShort(value)) <==>
      key == "retry" && AsInt(value).Some? && AsInt(value).value < MinRetry
    ensures v == Refuse(ExpireTooLong(value)) <==>
      key == "expire" && AsInt(value).Some? && AsInt(value).value > MaxExpire
  {
    if key !in MessageKeywords then Refuse(InvalidParameter(key))
    else if key == "timestamp" then Raise(TimestampUnavailable)
    else if key == "sound" && !SoundKnown(value, sounds) then Refuse(InvalidSound(value))
    else if key == "retry" then
      match AsInt(value)
      case None => Refuse(NotAnInteger(key, value))
      case Some(n) => if n < MinRetry then Refuse(RetryTooShort(value)) else Keep
    else if key == "expire" then
      match AsInt(value)
      case None => Refuse(NotAnInteger(key, value))
      case Some(n) => if n > MaxExpire then Refuse(ExpireTooLong(value)) else Keep
    else Keep
  }

  /** Keyword arguments, in the order the caller passed them. */
  type Kwargs = seq<(string, Value)>

  function KeysOf(kw: Kwargs): set<string> {
    if kw == [] then {} else {kw[0].0} + KeysOf(kw[1..])
  }

  lemma {:induction false} KeyOfMember(kw: Kwargs, x: (string, Value))
    requires x in kw
    ensures x.0 in KeysOf(kw)
  {
    if kw[0] != x {
      KeyOfMember(kw[1..], x);
    }
  }

  /** Python never passes the same keyword twice. */
  predicate DistinctKeys(kw: Kwargs) {
    kw == [] || (kw[0].0 !in KeysOf(kw[1..]) && DistinctKeys(kw[1..]))
  }

  /** `kwargs.pop(key)`: the keyword arguments without `key`, order kept. */
  function Pop(kw: Kwargs, key: string): (r: Kwargs)
    ensures KeysOf(r) == KeysOf(kw) - {key}
    ensures forall x :: x in r <==> x in kw && x.0 != key
    ensures DistinctKeys(kw) ==> DistinctKeys(r)
  {
    if kw == [] then []
    else
      var tail := Pop(kw[1..], key);
      assert forall x :: x in kw <==> x == kw[0] || x in kw[1..];
      if kw[0].0 == key then tail
      else
        assert ([kw[0]] + tail)[1..] == tail;
        [kw[0]] + tail
  }

  /** Popping a keyword that was not passed changes nothing. */
  lemma {:induction false} PopAbsent(kw: Kwargs, key: string)
    requires key !in KeysOf(kw)
    ensures Pop(kw, key) == kw
  {
    if kw != [] {
      PopAbsent(kw[1..], key);
    }
  }

  /** Popping the first keyword passed leaves the rest as they are. */
  lemma PopFirst(kw: Kwargs, key: string)
    requires DistinctKeys(kw) && kw != [] && kw[0].0 == key
    ensures Pop(kw, key) == kw[1..]
  {
    PopAbsent(kw[1..], key);
  }

  /** Popping another keyword keeps the first entry in front. */
  lemma PopKeepsFirst(kw: Kwargs, key: string)
    requires kw != [] && kw[0].0 != key
    ensures Pop(kw, key) == [kw[0]] + Pop(kw[1..], key)
  {
  }

  lemma CutAround<T>(s: seq<T>, j: int)
    requires 0 < j < |s|
    ensures s[..j] + s[j + 1..] == [s[0]] + (s[1..][..j - 1] + s[1..][j..])
  {
    assert s[..j] == [s[0]] + s[1..][..j - 1];
    assert s[j + 1..] == s[1..][j..];
  }

  /** `kwargs.pop(key)` on a passed keyword removes exactly its entry and keeps the others in order. */
  lemma {:induction false} PopRemovesOne(kw: Kwargs, key: string, j: int)
    requires DistinctKeys(kw) && 0 <= j < |kw| && kw[j].0 == key
    ensures Pop(kw, key) == kw[..j] + kw[j + 1..]
  {
    if j == 0 {
      PopFirst(kw, key);
      assert kw[..0] + kw[1..] == kw[1..];
    } else {
      var tail := kw[1..];
      assert kw[0].0 != key by {
        assert tail[j - 1] == kw[j];
        KeyOfMember(tail, kw[j]);
      }
      assert Pop(tail, key) == tail[..j - 1] + tail[j..] by {
        assert tail[j - 1] == kw[j];
        PopRemovesOne(tail, key, j - 1);
      }
      PopKeepsFirst(kw, key);
      CutAround(kw, j);
    }
  }

  /** The value passed for `key`, if any. */
  function Lookup(kw: Kwargs, key: string): (r: Option<Value>)
    ensures r.Some? <==> key in KeysOf(kw)
    ensures r.Some? ==> (key, r.value) in kw
  {
    if kw == [] then None
    else if kw[0].0 == key then Some(kw[0].1)
    else Lookup(kw[1..], key)
  }

  /** Popping one keyword leaves the others' values in place. */
  lemma {:induction false} LookupAfterPop(kw: Kwargs, popped: string, key: string)
    requires popped != key
    ensures Lookup(Pop(kw, popped), key) == Lookup(kw, key)
  {
    if kw != [] {
      LookupAfterPop(kw[1..], popped, key);
      if kw[0].0 != popped {
        assert Pop(kw, popped) == [kw[0]] + Pop(kw[1..], popped);
      }
    }
  }

  /** A `user` or `token` keyword replaces the client's field; otherwise the field stays. */
  function Override(field: Value, kw: Kwargs, key: string): Value {
    match Lookup(kw, key)
    case Some(v) => v
    case None => field
  }

  /** The keyword arguments left once `user` and `token` have been popped. */
  function Rest(kwargs: Kwargs): Kwargs {
    Pop(Pop(kwargs, "user"), "token")
  }

  /** The payload Pushover.message starts from. */
  function Base(message: Value, user: Value, token: Value): Dict {
    map["message" := message, "user" := user, "token" := token]
  }

  /** The payload after copying the keyword arguments into `base`, in order. */
  function Merge(base: Dict, kw: Kwargs): (r: Dict)
    ensures base.Keys <= r.Keys
    decreases |kw|
  {
    if kw == [] then base else Merge(base[kw[0].0 := kw[0].1], kw[1..])
  }

  /** Copying keeps every base entry that is not passed, and adds each keyword with exactly its value. */
  lemma {:induction false} MergeContents(base: Dict, kw: Kwargs)
    requires DistinctKeys(kw)
    ensures Merge(base, kw).Keys == base.Keys + KeysOf(kw)
    ensures forall x :: x in kw ==> x.0 in Merge(base, kw) && Merge(base, kw)[x.0] == x.1
    ensures forall k :: k in base && k !in KeysOf(kw) ==> Merge(base, kw)[k] == base[k]
    decreases |kw|
  {
    if kw != [] {
      var next := base[kw[0].0 := kw[0].1];
      MergeContents(next, kw[1..]);
      forall x | x in kw ensures x.0 in Merge(base, kw) && Merge(base, kw)[x.0] == x.1 {
        KeyOfMember(kw, x);
        if x != kw[0] {
          assert x in kw[1..];
        }
      }
    }
  }

  /** The payload Pushover.message sends for these arguments, given the client's user and token. */
  function MessagePayload(message: Value, user: Value, token: Value, kwargs: Kwargs): (r: Dict)
    ensures {"message", "user", "token"} <= r.Keys
  {
    Merge(Base(message, Override(user, kwargs, "user"), Override(token, kwargs, "token")), Rest(kwargs))
  }

  /**
   * The payload Pushover.message sends always holds message, user and
   * token; a user or token keyword replaces the client's own value; every
   * other keyword is copied unchanged.
   */
  lemma PayloadContents(message: Value, user: Value, token: Value, kwargs: Kwargs)
    requires DistinctKeys(kwargs) && "message" !in KeysOf(kwargs)
    ensures MessagePayload(message, user, token, kwargs).Keys == {"message", "user", "token"} + KeysOf(kwargs)
    ensures MessagePayload(message, user, token, kwargs)["message"] == message
    ensures MessagePayload(message, user, token, kwargs)["user"] == Override(user, kwargs, "user")
    ensures MessagePayload(message, user, token, kwargs)["token"] == Override(token, kwargs, "token")
    ensures forall x :: x in kwargs && x.0 != "user" && x.0 != "token" ==>
      x.0 in MessagePayload(message, user, token, kwargs) && MessagePayload(message, user, token, kwargs)[x.0] == x.1
  {
    var base := Base(message, Override(user, kwargs, "user"), Override(token, kwargs, "token"));
    var rest := Rest(kwargs);
    var p := Merge(base, rest);
    assert KeysOf(rest) == KeysOf(kwargs) - {"user", "token"};
    MergeContents(base, rest);
    assert p.Keys == {"message", "user", "token"} + KeysOf(kwargs);
    forall x | x in kwargs && x.0 != "user" && x.0 != "token"
      ensures x.0 in p && p[x.0] == x.1
    {
      var once := Pop(kwargs, "user");
      assert x in once;
      assert x in Pop(once, "token");
      KeyOfMember(rest, x);
    }
  }

  predicate AllAdmissible(kw: Kwargs, sounds: set<string>) {
    forall j :: 0 <= j < |kw| ==> Admissible(kw[j].0, kw[j].1, sounds)
  }

  /** The `j`-th keyword argument is the first one that is not admissible. */
  predicate FirstInadmissible(kw: Kwargs, sounds: set<string>, j: int) {
    && 0 <= j < |kw|
    && !Admissible(kw[j].0, kw[j].1, sounds)
    && forall i :: 0 <= i < j ==> Admissible(kw[i].0, kw[i].1, sounds)
  }

  /** The keyword loop stops, with verdict `v`, at the first argument that is not admissible. */
  predicate StoppedBy(kw: Kwargs, sounds: set<string>, v: Verdict) {
    exists j :: 0 <= j < |kw| && FirstInadmissible(kw, sounds, j) && Screen(kw[j].0, kw[j].1, sounds) == v
  }

  /** The result of the keyword loop: a complete payload, or the verdict that stopped it. */
  datatype Built = Payload(payload: Dict) | Halted(verdict: Verdict)

  /**
   * The keyword loop of Pushover.message: each argument is screened in
   * order; the first one that is not admissible stops the loop, otherwise it
   * is copied into the payload.
   */
  method BuildPayload(message: Value, user: Value, token: Value, kwargs: Kwargs, sounds: set<string>)
    returns (r: Built)
    ensures r.Payload? <==> AllAdmissible(kwargs, sounds)
    ensures r.Payload? ==> r.payload == Merge(Base(message, user, token), kwargs)
    ensures r.Halted? ==> StoppedBy(kwargs, sounds, r.verdict)
  {
    var payload := Base(message, user, token);
    var i := 0;
    while i < |kwargs|
      invariant 0 <= i <= |kwargs|
      invariant forall k :: 0 <= k < i ==> Admissible(kwargs[k].0, kwargs[k].1, sounds)
      invariant Merge(payload, kwargs[i..]) == Merge(Base(message, user, token), kwargs)
    {
      var (key, value) := kwargs[i];
      var verdict := Screen(key, value, sounds);
      if verdict != Keep {
        assert FirstInadmissible(kwargs, sounds, i);
        return Halted(verdict);
      }
      assert kwargs[i..][1..] == kwargs[i + 1..];
      payload := payload[key := value];
      i := i + 1;
    }
    return Payload(payload);
  }

  // ---------------------------------------------------------------------------
  // MessageRequest: the receipt status record
  // ---------------------------------------------------------------------------

  type Status = map<string, Value>

  /** The receipt flags and the field holding the time each was reached (MessageRequest.params). */
  const Params: seq<(string, string)> := [
    ("expired", "expires_at"), ("called_back", "called_back_at"), ("acknowledged", "acknowledged_at")
  ]

  /** Who acknowledged the message, copied as they come. */
  const Identities: seq<string> := ["acknowledged_by", "acknowledged_by_device"]

  /** Every field a poll writes besides `done`. */
  const AnswerFields: set<string> := {
    "expired", "expires_at", "called_back", "called_back_at", "acknowledged", "acknowledged_at",
    "acknowledged_by", "acknowledged_by_device", "last_delivered_at"
  }

  /** The fields of a freshly sent emergency message's status. */
  const PendingFields: set<string> := {
    "done", "expired", "expires_at", "called_back", "called_back_at", "acknowledged", "acknowledged_at"
  }

  predicate IsDone(s: Status) {
    "done" in s && s["done"] == Flag(true)
  }

  /** `payload.get("priority", 0) == 2`: only the integer 2 marks an emergency message. */
  predicate IsEmergency(payload: Dict) {
    "priority" in payload && payload["priority"] == Num(2)
  }

  /** The status after the first `k` rounds of the reset loop in MessageRequest.__init__. */
  function ResetRounds(k: nat): Status
    requires k <= |Params|
  {
    if k == 0 then map["done" := Flag(false)]
    else ResetRounds(k - 1)[Params[k - 1].0 := Flag(false)][Params[k - 1].1 := Num(0)]
  }

  /**
   * The status of a new MessageRequest: done unless the message is an
   * emergency one, in which case no flag is raised and no time is set yet.
   */
  function InitialStatus(payload: Dict): (s: Status)
    ensures IsDone(s) <==> !IsEmergency(payload)
    ensures IsEmergency(payload) ==> "done" in s && s["done"] == Flag(false)
    ensures !IsEmergency(payload) ==> s.Keys == {"done"}
    ensures IsEmergency(payload) ==> s.Keys == PendingFields
    ensures IsEmergency(payload) ==>
      && s["expired"] == s["called_back"] == s["acknowledged"] == Flag(false)
      && s["expires_at"] == s["called_back_at"] == s["acknowledged_at"] == Num(0)
  {
    if IsEmergency(payload) then
      assert ResetRounds(1).Keys == {"done", "expired", "expires_at"};
      assert ResetRounds(2).Keys == {"done", "expired", "expires_at", "called_back", "called_back_at"};
      ResetRounds(|Params|)
    else
      map["done" := Flag(true)]
  }

  /** The provider's answer to a receipt query (the JSON fields poll reads). */
  datatype ReceiptAnswer = ReceiptAnswer(
    acknowledged: int, acknowledged_at: int,
    acknowledged_by: string, acknowledged_by_device: string,
    last_delivered_at: int,
    expired: int, expires_at: int,
    called_back: int, called_back_at: int)

  /** `r.answer[name]` for the numeric fields. */
  function AnswerNumber(a: ReceiptAnswer, name: string): int {
    if name == "acknowledged" then a.acknowledged
    else if name == "acknowledged_at" then a.acknowledged_at
    else if name == "expired" then a.expired
    else if name == "expires_at" then a.expires_at
    else if name == "called_back" then a.called_back
    else if name == "called_back_at" then a.called_back_at
    else a.last_delivered_at
  }

  /** `r.answer[name]` for the identity fields. */
  function AnswerText(a: ReceiptAnswer, name: string): string {
    if name == "acknowledged_by" then a.acknowledged_by else a.acknowledged_by_device
  }

  /** The answer reports a terminal state: acknowledged, expired or called back. */
  predicate Finished(a: ReceiptAnswer) {
    a.acknowledged != 0 || a.expired != 0 || a.called_back != 0
  }

  /** The status after the first `k` rounds of poll's flag loop. */
  function FlagRounds(s: Status, a: ReceiptAnswer, k: nat): Status
    requires k <= |Params|
  {
    if k == 0 then s
    else
      var (param, when) := Params[k - 1];
      FlagRounds(s, a, k - 1)[param := Flag(AnswerNumber(a, param) != 0)][when := Num(AnswerNumber(a, when))]
  }

  /** The status after the first `k` rounds of poll's identity loop. */
  function IdentityRounds(s: Status, a: ReceiptAnswer, k: nat): Status
    requires k <= |Identities|
  {
    if k == 0 then s
    else IdentityRounds(s, a, k - 1)[Identities[k - 1] := Text(AnswerText(a, Identities[k - 1]))]
  }

  /** All three rounds of the flag loop at once. */
  lemma FlagRoundsAll(s: Status, a: ReceiptAnswer)
    ensures FlagRounds(s, a, |Params|) ==
      s["expired" := Flag(a.expired != 0)]["expires_at" := Num(a.expires_at)]
       ["called_back" := Flag(a.called_back != 0)]["called_back_at" := Num(a.called_back_at)]
       ["acknowledged" := Flag(a.acknowledged != 0)]["acknowledged_at" := Num(a.acknowledged_at)]
  {
    assert FlagRounds(s, a, 1) == s["expired" := Flag(a.expired != 0)]["expires_at" := Num(a.expires_at)];
    assert FlagRounds(s, a, 2) == FlagRounds(s, a, 1)
      ["called_back" := Flag(a.called_back != 0)]["called_back_at" := Num(a.called_back_at)];
  }

  /** Both rounds of the identity loop at once. */
  lemma IdentityRoundsAll(s: Status, a: ReceiptAnswer)
    ensures IdentityRounds(s, a, |Identities|) ==
      s["acknowledged_by" := Text(a.acknowledged_by)]["acknowledged_by_device" := Text(a.acknowledged_by_device)]
  {
    assert IdentityRounds(s, a, 1) == s["acknowledged_by" := Text(a.acknowledged_by)];
  }

  /** `any(self.status[param] for param in params)`. */
  predicate AnyRaised(s: Status) {
    exists j :: 0 <= j < |Params| && Params[j].0 in s && s[Params[j].0] == Flag(true)
  }

  /** The status once poll's two loops and its last assignment have copied the answer in. */
  function Copied(s: Status, a: ReceiptAnswer): Status {
    IdentityRounds(FlagRounds(s, a, |Params|), a, |Identities|)["last_delivered_at" := Num(a.last_delivered_at)]
  }

  /** What one receipt query does to the status: copy the answer in, then latch `done` if a flag is up. */
  function Absorb(s: Status, a: ReceiptAnswer): Status {
    var copied := Copied(s, a);
    if AnyRaised(copied) then copied["done" := Flag(true)] else copied
  }

  lemma CopiedClosedForm(s: Status, a: ReceiptAnswer)
    ensures Copied(s, a) ==
      s["expired" := Flag(a.expired != 0)]["expires_at" := Num(a.expires_at)]
       ["called_back" := Flag(a.called_back != 0)]["called_back_at" := Num(a.called_back_at)]
       ["acknowledged" := Flag(a.acknowledged != 0)]["acknowledged_at" := Num(a.acknowledged_at)]
       ["acknowledged_by" := Text(a.acknowledged_by)]["acknowledged_by_device" := Text(a.acknowledged_by_device)]
       ["last_delivered_at" := Num(a.last_delivered_at)]
  {
    FlagRoundsAll(s, a);
    IdentityRoundsAll(FlagRounds(s, a, |Params|), a);
  }

  /** After a receipt query the status holds exactly what the provider answered. */
  lemma AbsorbCopiesAnswer(s: Status, a: ReceiptAnswer)
    ensures var t := Absorb(s, a);
      && AnswerFields <= t.Keys
      && t["acknowledged"] == Flag(a.acknowledged != 0) && t["acknowledged_at"] == Num(a.acknowledged_at)
      && t["expired"] == Flag(a.expired != 0) && t["expires_at"] == Num(a.expires_at)
      && t["called_back"] == Flag(a.called_back != 0) && t["called_back_at"] == Num(a.called_back_at)
      && t["acknowledged_by"] == Text(a.acknowledged_by)
      && t["acknowledged_by_device"] == Text(a.acknowledged_by_device)
      && t["last_delivered_at"] == Num(a.last_delivered_at)
  {
    CopiedClosedForm(s, a);
  }

  /** A receipt query adds the answered fields and touches nothing else but `done`. */
  lemma AbsorbKeepsTheRest(s: Status, a: ReceiptAnswer)
    ensures Absorb(s, a).Keys == s.Keys + AnswerFields + (if Finished(a) then {"done"} else {})
    ensures forall k :: k in s && k !in AnswerFields && k != "done" ==> Absorb(s, a)[k] == s[k]
  {
    CopiedClosedForm(s, a);
    assert AnyRaised(Copied(s, a)) <==> Finished(a) by {
      assert Params[0].0 == "expired" && Params[1].0 == "called_back" && Params[2].0 == "acknowledged";
    }
  }

  /** `done` latches exactly when the answer is terminal, and never goes back to false. */
  lemma AbsorbLatches(s: Status, a: ReceiptAnswer)
    ensures IsDone(Absorb(s, a)) <==> IsDone(s) || Finished(a)
    ensures "done" in s && s["done"].Flag? ==> "done" in Absorb(s, a) && Absorb(s, a)["done"].Flag?
  {
    CopiedClosedForm(s, a);
    assert AnyRaised(Copied(s, a)) <==> Finished(a) by {
      assert Params[0].0 == "expired" && Params[1].0 == "called_back" && Params[2].0 == "acknowledged";
    }
  }

  /** MessageRequest.poll on the status: no query once done. */
  function PollStep(s: Status, a: ReceiptAnswer): Status {
    if IsDone(s) then s else Absorb(s, a)
  }

  /** The status after polling with each answer in turn. */
  function PollAll(s: Status, answers: seq<ReceiptAnswer>): Status
    decreases |answers|
  {
    if answers == [] then s else PollAll(PollStep(s, answers[0]), answers[1..])
  }

  /** A done status is frozen: no later poll changes it. */
  lemma {:induction false} PollAllFrozen(s: Status, answers: seq<ReceiptAnswer>)
    requires IsDone(s)
    ensures PollAll(s, answers) == s
    decreases |answers|
  {
    if answers != [] {
      PollAllFrozen(s, answers[1..]);
    }
  }

  /** Polling ends done exactly when it started done or some answer was terminal. */
  lemma {:induction false} PollAllDone(s: Status, answers: seq<ReceiptAnswer>)
    ensures IsDone(PollAll(s, answers)) <==> IsDone(s) || exists i :: 0 <= i < |answers| && Finished(answers[i])
    decreases |answers|
  {
    if answers != [] {
      var next := PollStep(s, answers[0]);
      AbsorbLatches(s, answers[0]);
      PollAllDone(next, answers[1..]);
      forall i | 0 <= i < |answers[1..]| ensures answers[1..][i] == answers[i + 1] { }
      if IsDone(s) {
        PollAllFrozen(s, answers);
      }
    }
  }

  /** Polling with a terminal answer makes every later answer irrelevant. */
  lemma {:induction false} PollAllIgnoresAfterFinish(s: Status, answers: seq<ReceiptAnswer>, i: nat)
    requires i < |answers| && Finished(answers[i])
    ensures PollAll(s, answers) == PollAll(s, answers[..i + 1])
    decreases i
  {
    if i == 0 {
      var next := PollStep(s, answers[0]);
      AbsorbLatches(s, answers[0]);
      assert IsDone(next);
      PollAllFrozen(next, answers[1..]);
      assert answers[..1][1..] == [];
    } else {
      PollAllIgnoresAfterFinish(PollStep(s, answers[0]), answers[1..], i - 1);
      assert answers[..i + 1][1..] == answers[1..][..i];
    }
  }

  /** One MessageRequest: the message it sent and the receipt it tracks. */
  class MessageRequest {
    /** The message parameters, without the attachment. */
    const payload: Dict
    /** The uploaded attachment, if any. */
    const files: Dict
    /** The receipt's address; empty for a message that is not an emergency one. */
    const url: string
    var status: Status
    /** Every request this object has sent, in order. */
    ghost var calls: seq<Call>

    ghost predicate Valid()
      reads this
    {
      "done" in status && status["done"].Flag? && "token" in payload
    }

    /** Sends the message (recorded in `calls`) and sets up the receipt status. */
    constructor (payload: Dict, receipt: string)
      requires "token" in payload
      ensures Valid()
      ensures this.payload == Prepare(Post, MessageUrl, payload).params
      ensures files == Prepare(Post, MessageUrl, payload).files
      ensures calls == [Prepare(Post, MessageUrl, payload)]
      ensures url == if IsEmergency(payload) then ReceiptUrl + receipt else ""
      ensures status == InitialStatus(payload)
    {
      var sent := Prepare(Post, MessageUrl, payload);
      this.payload := sent.params;
      files := sent.files;
      calls := [sent];
      url := if IsEmergency(sent.params) then ReceiptUrl + receipt else "";
      new;
      status := map["done" := Flag(true)];
      if IsEmergency(sent.params) {
        status := status["done" := Flag(false)];
        for k := 0 to |Params|
          invariant status == ResetRounds(k)
          invariant calls == [sent]
        {
          var (param, when) := Params[k];
          status := status[param := Flag(false)];
          status := status[when := Num(0)];
        }
      }
    }

    /** The query poll sends for the receipt. */
    function ReceiptQuery(): (c: Call)
      reads this
      requires "token" in payload
      ensures c.verb == Get && c.url == url + ".json"
      ensures c.params == map["token" := payload["token"]] && c.files == map[]
    {
      Prepare(Get, url + ".json", map["token" := payload["token"]])
    }

    /** The request cancel sends for the receipt. */
    function CancelRequest(): (c: Call)
      reads this
      requires "token" in payload
      ensures c.verb == Post && c.url == url + "/cancel.json"
      ensures c.params == map["token" := payload["token"]] && c.files == map[]
    {
      Prepare(Post, url + "/cancel.json", map["token" := payload["token"]])
    }

    /**
     * Fetches the receipt status, unless the request is already done, and
     * returns whether it is done now.
     */
    method Poll(answer: ReceiptAnswer) returns (done: bool)
      requires Valid()
      modifies this`status, this`calls
      ensures Valid()
      ensures status == PollStep(old(status), answer)
      ensures calls == if IsDone(old(status)) then old(calls) else old(calls) + [ReceiptQuery()]
      ensures done == IsDone(status)
      ensures IsDone(old(status)) ==> done && status == old(status)
      ensures !IsDone(old(status)) ==> (done <==> Finished(answer))
    {
      if !status["done"].b {
        calls := calls + [ReceiptQuery()];
        ghost var before := status;
        for k := 0 to |Params|
          invariant status == FlagRounds(before, answer, k)
          invariant calls == old(calls) + [ReceiptQuery()]
        {
          var (param, when) := Params[k];
          status := status[param := Flag(AnswerNumber(answer, param) != 0)];
          status := status[when := Num(AnswerNumber(answer, when))];
        }
        for k := 0 to |Identities|
          invariant status == IdentityRounds(FlagRounds(before, answer, |Params|), answer, k)
          invariant calls == old(calls) + [ReceiptQuery()]
        {
          var param := Identities[k];
          status := status[param := Text(AnswerText(answer, param))];
        }
        status := status["last_delivered_at" := Num(answer.last_delivered_at)];
        if AnyRaised(status) {
          status := status["done" := Flag(true)];
        }
        assert status == Absorb(before, answer);
        AbsorbLatches(before, answer);
      }
      done := status["done"].b;
    }

    /** Cancels the emergency message early, unless the request is already done. */
    method Cancel() returns (sent: Option<Call>)
      requires Valid()
      modifies this`calls
      ensures IsDone(status) ==> sent == None && calls == old(calls)
      ensures !IsDone(status) ==> sent == Some(CancelRequest()) && calls == old(calls) + [CancelRequest()]
    {
      if !status["done"].b {
        sent := Some(CancelRequest());
        calls := calls + [CancelRequest()];
      } else {
        sent := None;
      }
    }
  }

  // ---------------------------------------------------------------------------
  // Pushover: the application client
  // ---------------------------------------------------------------------------

  /**
   * What Pushover.message returns: a sent request, None after a printed
   * error, or an exception together with the requests already sent when it
   * was raised.
   */
  datatype Outcome =
    | Sent(request: MessageRequest)
    | Rejected(why: Rejection)
    | Raised(fault: Fault, sent: seq<Call>)

  class Pushover {
    var user: Value
    var token: Value

    constructor (user: Value := Text(""), token: Value := Text(""))
      ensures this.user == user && this.token == token
    {
      this.user := user;
      this.token := token;
    }

    /**
     * Sends `message` with the given keyword arguments. `sounds` is the
     * provider's sound list; `receipt` is the "receipt" field of the
     * provider's answer to the send, if it has one.
     */
    method Message(message: Value, kwargs: Kwargs, sounds: set<string>, receipt: Option<string>)
      returns (r: Outcome)
      modifies this
      ensures user == Override(old(user), kwargs, "user")
      ensures token == Override(old(token), kwargs, "token")
      ensures r.Sent? <==>
        AllAdmissible(Rest(kwargs), sounds) && (IsEmergency(MessagePayload(message, old(user), old(token), kwargs)) ==> receipt.Some?)
      ensures r.Sent? ==> fresh(r.request) && r.request.Valid()
      ensures r.Sent? ==> r.request.calls == [Prepare(Post, MessageUrl, MessagePayload(message, old(user), old(token), kwargs))]
      ensures r.Sent? ==> r.request.status == InitialStatus(MessagePayload(message, old(user), old(token), kwargs))
      ensures r.Sent? ==>
        var sent := Prepare(Post, MessageUrl, MessagePayload(message, old(user), old(token), kwargs));
        && r.request.payload == sent.params
        && r.request.files == sent.files
        && r.request.url ==
          if IsEmergency(MessagePayload(message, old(user), old(token), kwargs)) then ReceiptUrl + receipt.value else ""
      ensures r.Raised? && r.fault == ReceiptMissing <==>
        AllAdmissible(Rest(kwargs), sounds) && IsEmergency(MessagePayload(message, old(user), old(token), kwargs)) && receipt.None?
      ensures r.Raised? && r.fault == ReceiptMissing ==>
        r.sent == [Prepare(Post, MessageUrl, MessagePayload(message, old(user), old(token), kwargs))]
      ensures r.Rejected? ==> StoppedBy(Rest(kwargs), sounds, Refuse(r.why))
      ensures r.Raised? && r.fault == TimestampUnavailable ==>
        StoppedBy(Rest(kwargs), sounds, Raise(TimestampUnavailable)) && r.sent == []
    {
      var rest := kwargs;
      if "user" in KeysOf(rest) {
        user := Lookup(rest, "user").value;
        rest := Pop(rest, "user");
      } else {
        PopAbsent(rest, "user");
      }
      LookupAfterPop(kwargs, "user", "token");
      if "token" in KeysOf(rest) {
        token := Lookup(rest, "token").value;
        rest := Pop(rest, "token");
      } else {
        PopAbsent(rest, "token");
      }
      assert rest == Rest(kwargs);
      var built := BuildPayload(message, user, token, rest, sounds);
      match built {
        case Halted(verdict) =>
          match verdict {
            case Refuse(why) => r := Rejected(why);
            case Raise(fault) => r := Raised(fault, []);
          }
        case Payload(payload) =>
          if IsEmergency(payload) && receipt.None? {
            // the message has gone out before the answer is found to lack its receipt
            r := Raised(ReceiptMissing, [Prepare(Post, MessageUrl, payload)]);
          } else {
            var request := new MessageRequest(payload, if receipt.Some? then receipt.value else "");
            r := Sent(request);
          }
      }
    }
  }
}
