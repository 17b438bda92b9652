/**
  The retry loop of transport.go.  The round tripper, the retry condition, the caller's
  cancellation, body rewinding and all other requests are adversaries.
*/
module RoundTrip {
  import opened PeerStates
  import opened Peers
  import opened Health
  import opened RoundRobin
  import opened Pickers

  // ---------- Decisions ----------

  datatype Error =
    | Canceled | NoPeerAvailable | NoBackendAddress | BodyUnavailable
    | NilResponseBody | InvalidRoundTrip | NilRoundTripper
    | Other(id: int)

  /** The configured round tripper broke its contract; that says nothing about the peer. */
  predicate ContractError(err: Option<Error>) {
    err.Some? && (err.value.NilResponseBody? || err.value.InvalidRoundTrip? || err.value.NilRoundTripper?)
  }

  /** `timed`: attempts have a timeout.  `standard`: the round tripper is net/http's.  `custom`: a retry condition was supplied. */
  datatype Settings = Settings(timed: bool, standard: bool, custom: bool, retryNonIdempotent: bool)

  /** How an attempt gets its body. */
  datatype BodyMode = Absent | FromGetBody | Seekable | Streaming | Buffered

  /** A request body, ready to be read from its start. */
  class Payload {
    constructor () {}
  }

  /** `body` is the caller's own, which can be read once unless it can be rewound. */
  datatype Request = Request(nonIdempotent: bool, getBody: bool, body: Option<Payload>, seeker: bool)

  /** Whether a later attempt may need the body again. */
  predicate MayNeedReplay(cfg: Settings, nonIdempotent: bool, multipleUsable: bool) {
    multipleUsable && (!nonIdempotent || cfg.retryNonIdempotent)
  }

  ghost function NotDown(peers: seq<Peer>): set<Peer> {
    set p | p in peers && !p.cfg.down
  }

  /** How many of an upstream's servers are not marked down, counted when it is registered: the peers worth an attempt. */
  method CountUsable(peers: seq<Peer>, ghost pk: Picker) returns (n: nat)
    requires Distinct(peers) && (set p | p in peers) == pk.Base().Pool()
    ensures n == |pk.Usable()|
  {
    n := 0;
    for i := 0 to |peers|
      invariant n == |NotDown(peers[..i])|
    {
      assert peers[..i + 1] == peers[..i] + [peers[i]];
      assert NotDown(peers[..i + 1]) == NotDown(peers[..i]) + if peers[i].cfg.down then {} else {peers[i]};
      if !peers[i].cfg.down {
        n := n + 1;
      }
    }
    assert peers[..|peers|] == peers;
    assert NotDown(peers) == pk.Usable() by {
      assert forall p :: p in peers <==> p in pk.Base().Pool();
    }
  }

  function PrepareBody(getBody: bool, body: bool, seeker: bool, replay: bool): BodyMode {
    if getBody then FromGetBody
    else if !body then Absent
    else if seeker then Seekable
    else if !replay then Streaming
    else Buffered
  }

  /** In these modes every attempt gets a body of its own. */
  predicate Replayed(mode: BodyMode) {
    mode.FromGetBody? || mode.Seekable? || mode.Buffered?
  }

  /** A body is drained into memory only when nothing else will do, and left alone whenever it can be: mode by mode. */
  lemma ModesInFields(getBody: bool, body: bool, seeker: bool, cfg: Settings, nonIdempotent: bool, multipleUsable: bool)
    ensures var mode := PrepareBody(getBody, body, seeker, MayNeedReplay(cfg, nonIdempotent, multipleUsable));
            && (mode.FromGetBody? <==> getBody)
            && (mode.Absent? <==> !getBody && !body)
            && (mode.Seekable? <==> !getBody && body && seeker)
            && (mode.Streaming? <==>
                !getBody && body && !seeker && (!multipleUsable || (nonIdempotent && !cfg.retryNonIdempotent)))
            && (mode.Buffered? <==>
                !getBody && body && !seeker && multipleUsable && (!nonIdempotent || cfg.retryNonIdempotent))
  {
  }

  function WasSent(cfg: Settings, wrote: bool, resp: bool, err: bool): bool {
    if resp || wrote then true else if !err then false else !cfg.standard
  }

  datatype Decision = Decision(retry: bool, outcome: Outcome)

  /** `wish` is what a custom retry condition answered. */
  function Decide(cfg: Settings, nonIdempotent: bool, wish: bool, status: Option<int>, err: Option<Error>, sent: bool): Decision {
    var neutral := ContractError(err);
    var wanted := if cfg.custom then wish else err.Some?;
    if !wanted then Decision(false, if neutral then Neutral else Succeeded)
    else
      var blocked := sent && nonIdempotent && !cfg.retryNonIdempotent;
      var excused := err.None? && status.Some? && (status.value == 403 || status.value == 404 || blocked);
      Decision(!blocked, if neutral then Neutral else if excused then Succeeded else Failed)
  }

  /** The request went out, may not be repeated, and nobody allowed repeating it. */
  predicate Gated(cfg: Settings, nonIdempotent: bool, sent: bool) {
    sent && nonIdempotent && !cfg.retryNonIdempotent
  }

  /**
    What the decision means for the peer and for the next attempt: a neutral release
    exactly for a broken round tripper; a retry exactly when one was wanted and the
    request is not gated; and, but for broken round trippers, a failure exactly when a
    retry was wanted and no answer excuses the peer.
  */
  lemma DecisionRules(cfg: Settings, nonIdempotent: bool, wish: bool, status: Option<int>, err: Option<Error>, sent: bool)
    ensures var d := Decide(cfg, nonIdempotent, wish, status, err, sent);
            var wanted := if cfg.custom then wish else err.Some?;
            && (d.outcome.Neutral? <==> ContractError(err))
            && (d.retry <==> wanted && !Gated(cfg, nonIdempotent, sent))
            && (!ContractError(err) ==>
                  (d.outcome.Failed? <==>
                   wanted && (err.Some? || status.None? || !(status in {Some(403), Some(404)} || Gated(cfg, nonIdempotent, sent)))))
  {
  }

  /**
    The documentation says that contract errors are not retried.  They are, exactly when
    any error would be: always by default, and at the custom condition's wish, unless the
    method gate forbids it.
  */
  lemma ContractErrorsAreRetried(cfg: Settings, nonIdempotent: bool, wish: bool, status: Option<int>, err: Option<Error>, sent: bool)
    requires ContractError(err)
    ensures Decide(cfg, nonIdempotent, wish, status, err, sent).retry <==>
            (cfg.custom ==> wish) && !Gated(cfg, nonIdempotent, sent)
  {
  }

  /** For instance: with the default condition, a nil response without an error to a GET request goes on to the next peer. */
  lemma ContractErrorRetriedOnce() returns (cfg: Settings, d: Decision)
    ensures !cfg.custom && !cfg.retryNonIdempotent && d == Decide(cfg, false, false, None, Some(InvalidRoundTrip), true)
    ensures d.retry && d.outcome.Neutral?
  {
    cfg := Settings(false, false, false, false);
    d := Decide(cfg, false, false, None, Some(InvalidRoundTrip), true);
  }

  // ---------- The world outside ----------

  class Body {
    var closes: nat

    constructor ()
      ensures closes == 0
    {
      closes := 0;
    }
  }

  class CancelFunc {
    var calls: nat

    constructor ()
      ensures calls == 0
    {
      calls := 0;
    }
  }

  /** A response body, bare or wrapped so that closing it cancels its attempt's context. */
  datatype Reader = Plain(body: Body) | Cancelling(body: Body, cancel: CancelFunc)

  datatype Response = Response(status: int, reader: Reader)

  datatype RawResponse = RawResponse(status: int, body: Option<Body>)

  /** What the round tripper did: its answer, whether a write hook fired, and whether it read from the request body. */
  datatype Reply = Reply(resp: Option<RawResponse>, err: Option<Error>, wrote: bool, consumed: bool)

  /** One question to a custom retry condition, and its answer. */
  datatype Opinion = Opinion(resp: Option<Response>, err: Option<Error>, retry: bool)

  /** One call of the round tripper: the peer the request went to, the body it went with, and the reply. */
  datatype Exchange = Exchange(peer: Peer, payload: Option<Payload>, reply: Reply)

  ghost function BodyOf(reply: Reply): set<Body> {
    if reply.resp.Some? && reply.resp.value.body.Some? then {reply.resp.value.body.value} else {}
  }

  /** All response bodies received in some calls. */
  ghost function BodiesOf(calls: seq<Exchange>): set<Body> {
    if calls == [] then {} else BodiesOf(calls[..|calls| - 1]) + BodyOf(calls[|calls| - 1].reply)
  }

  lemma BodiesOneMore(calls: seq<Exchange>, e: Exchange)
    ensures BodiesOf(calls + [e]) == BodiesOf(calls) + BodyOf(e.reply)
  {
    assert (calls + [e])[..|calls|] == calls;
  }

  ghost function CancelsOf(cancels: seq<CancelFunc>): set<CancelFunc> {
    set c | c in cancels
  }

  ghost predicate Keeps(kept: Option<Response>, b: Body) {
    kept.Some? && kept.value.reader.body == b
  }

  ghost predicate Ties(kept: Option<Response>, c: CancelFunc) {
    kept.Some? && kept.value.reader.Cancelling? && kept.value.reader.cancel == c
  }

  /** All bodies received are closed exactly once and all cancels called exactly once, but for what `kept` still holds. */
  ghost predicate Tidy(bodies: set<Body>, cancels: set<CancelFunc>, kept: Option<Response>)
    reads bodies, cancels
  {
    && (forall b :: b in bodies ==> b.closes == if Keeps(kept, b) then 0 else 1)
    && (forall c :: c in cancels ==> c.calls == if Ties(kept, c) then 0 else 1)
    && (kept.Some? ==> kept.value.reader.body in bodies
                       && (kept.value.reader.Cancelling? ==> kept.value.reader.cancel in cancels))
  }

  ghost function Held(kept: Option<Response>): set<object> {
    if kept.None? then {}
    else {kept.value.reader.body} + if kept.value.reader.Cancelling? then {kept.value.reader.cancel} else {}
  }

  /** The dealings of a request with what is outside the repository. */
  datatype Dealings = Dealings(
    calls: seq<Exchange>, bodies: set<Body>, contexts: nat, opinions: seq<Opinion>, payloads: seq<Payload>, failures: nat,
    polls: nat, givenUp: bool)

  const NoDealings: Dealings := Dealings([], {}, 0, [], [], 0, 0, false)

  /**
    What a request deals with outside the repository, and a record of its dealings.
    Nothing is known about the answers but what the contracts say.
  */
  class Outside {
    ghost var calls: seq<Exchange>        // the round tripper's
    ghost var bodies: set<Body>           // received from it
    ghost var cancels: seq<CancelFunc>    // of the contexts created
    ghost var opinions: seq<Opinion>      // the custom retry condition's
    ghost var payloads: seq<Payload>      // request bodies produced for attempts
    ghost var failures: nat               // how often none could be produced
    ghost var polls: nat                  // how often the caller's context was looked at
    var givenUp: bool                     // it was done when last looked at

    constructor ()
      ensures Record() == NoDealings
    {
      calls, bodies, cancels, opinions, payloads, failures, polls, givenUp := [], {}, [], [], [], 0, 0, false;
    }

    ghost function Record(): Dealings
      reads this
    {
      Dealings(calls, bodies, |cancels|, opinions, payloads, failures, polls, givenUp)
    }

    ghost function Cancels(): set<CancelFunc>
      reads this`cancels
    {
      CancelsOf(cancels)
    }

    /** Whether the caller has given up; that cannot be taken back. */
    method ContextErr() returns (done: bool)
      modifies this`givenUp, this`polls
      ensures done == givenUp && (old(givenUp) ==> givenUp) && polls == old(polls) + 1
    {
      done := *;
      givenUp := givenUp || done;
      polls := polls + 1;
      done := givenUp;
    }

    /** Ask the custom retry condition. */
    method NextUpstream(resp: Option<Response>, err: Option<Error>) returns (retry: bool)
      modifies this`opinions
      ensures opinions == old(opinions) + [Opinion(resp, err, retry)]
    {
      retry := *;
      opinions := opinions + [Opinion(resp, err, retry)];
    }

    /** Produce the body for another attempt. */
    method GetBody() returns (body: Option<Payload>)
      modifies this`payloads, this`failures
      ensures body.Some? ==>
                && fresh(body.value) && body.value !in old(payloads)
                && payloads == old(payloads) + [body.value] && failures == old(failures)
      ensures body.None? ==> payloads == old(payloads) && failures == old(failures) + 1
    {
      var ok: bool := *;
      if ok {
        var p := new Payload();
        body := Some(p);
        payloads := payloads + [p];
      } else {
        body := None;
        failures := failures + 1;
      }
    }

    /** A context of an attempt's own. */
    method WithTimeout() returns (cancel: CancelFunc)
      modifies this`cancels
      ensures fresh(cancel) && cancel.calls == 0 && cancels == old(cancels) + [cancel]
    {
      cancel := new CancelFunc();
      cancels := cancels + [cancel];
    }

    /**
      Call the round tripper, which may happen only when everything earlier attempts
      received has been closed and cancelled but for the attempt's own context.
      net/http reports every write through its hooks before it reads the body; nothing
      is known about other implementations.
    */
    method RoundTrip(standard: bool, peer: Peer, payload: Option<Payload>, ghost earlier: set<CancelFunc>) returns (reply: Reply)
      requires Tidy(bodies, earlier, None)
      modifies this`calls, this`bodies
      ensures calls == old(calls) + [Exchange(peer, payload, reply)] && bodies == old(bodies) + BodyOf(reply)
      ensures standard && reply.consumed ==> reply.wrote
      ensures fresh(BodyOf(reply)) && BodyOf(reply) !! old(bodies) && forall b :: b in BodyOf(reply) ==> b.closes == 0
    {
      reply := Reply(None, Some(Other(0)), false, false);
      calls := calls + [Exchange(peer, payload, reply)];
    }
  }

  method Close(rd: Reader)
    modifies rd.body`closes
    modifies if rd.Cancelling? then {rd.cancel} else {}
    ensures rd.body.closes == old(rd.body.closes) + 1
    ensures rd.Cancelling? ==> rd.cancel.calls == old(rd.cancel.calls) + 1
  {
    if rd.Cancelling? {
      rd.cancel.calls := rd.cancel.calls + 1;
    }
    rd.body.closes := rd.body.closes + 1;
  }

  method CloseLast(last: Option<Response>, ghost bodies: set<Body>, ghost cancels: set<CancelFunc>)
    requires Tidy(bodies, cancels, last)
    modifies Held(last)
    ensures Tidy(bodies, cancels, None)
  {
    if last.Some? {
      Close(last.value.reader);
    }
  }

  // ---------- One attempt ----------

  /** The contract checks every reply goes through: afterwards there is a response with a body, or an error. */
  function Checked(reply: Reply): (r: (Option<Response>, Option<Error>))
    ensures r.0.Some? || r.1.Some?
    ensures r.0.Some? <==> reply.resp.Some? && reply.resp.value.body.Some?
  {
    if reply.resp.None? && reply.err.None? then (None, Some(InvalidRoundTrip))
    else if reply.resp.None? then (None, reply.err)
    else if reply.resp.value.body.None? then (None, Some(NilResponseBody))
    else (Some(Response(reply.resp.value.status, Plain(reply.resp.value.body.value))), reply.err)
  }

  /** Closing the body of a successful attempt with a timeout cancels it. */
  function Attached(resp: Option<Response>, err: Option<Error>, cancel: CancelFunc?): Option<Response> {
    if resp.None? || err.Some? || cancel == null then resp
    else Some(resp.value.(reader := Cancelling(resp.value.reader.body, cancel)))
  }

  /**
    What a reply amounts to: a response with the body received, or an error.  It counts as
    sent unless net/http failed before writing anything, and only then may its body be unread.
  */
  ghost predicate Answered(cfg: Settings, reply: Reply, resp: Option<Response>, err: Option<Error>, sent: bool) {
    && (resp.Some? || err.Some?)
    && (resp.Some? <==> BodyOf(reply) != {})
    && (resp.Some? ==>
          && reply.resp.Some? && BodyOf(reply) == {resp.value.reader.body} && resp.value.status == reply.resp.value.status
          && (resp.value.reader.Cancelling? <==> cfg.timed && err.None?))
    && err == (if reply.resp.None? && reply.err.None? then Some(InvalidRoundTrip)
               else if reply.resp.Some? && resp.None? then Some(NilResponseBody) else reply.err)
    && (sent <==> resp.Some? || reply.wrote || !cfg.standard)
    && (reply.consumed ==> sent)
  }

  lemma AnswerChecked(cfg: Settings, reply: Reply, cancel: CancelFunc?)
    requires (cfg.standard && reply.consumed ==> reply.wrote) && (cfg.timed <==> cancel != null)
    ensures var (resp, err) := Checked(reply);
            && Answered(cfg, reply, Attached(resp, err, cancel), err, WasSent(cfg, reply.wrote, resp.Some?, err.Some?))
            && (resp.Some? ==> resp.value.reader.Plain? && BodyOf(reply) == {resp.value.reader.body})
            && (resp.None? ==> BodyOf(reply) == {})
  {
  }

  ghost function SetOf(cancel: CancelFunc?): set<CancelFunc> {
    if cancel != null then {cancel} else {}
  }

  /** An attempt's cancel is called at once on error, and else tied to the response body. */
  method Attach(resp: Option<Response>, err: Option<Error>, cancel: CancelFunc?,
                ghost bodies: set<Body>, ghost mine: set<Body>, ghost cancels: set<CancelFunc>) returns (resp': Option<Response>)
    requires Tidy(bodies, cancels, None) && (resp.Some? || err.Some?)
    requires mine == (if resp.Some? then {resp.value.reader.body} else {}) && mine !! bodies && forall b :: b in mine ==> b.closes == 0
    requires resp.Some? ==> resp.value.reader.Plain?
    requires cancel != null ==> cancel !in cancels && cancel.calls == 0
    modifies SetOf(cancel)
    ensures resp' == Attached(resp, err, cancel)
    ensures Tidy(bodies + mine, cancels + SetOf(cancel), resp')
  {
    resp' := Attached(resp, err, cancel);
    if cancel != null && err.Some? {
      cancel.calls := cancel.calls + 1;
    }
  }

  lemma HeldIsNew(resp: Option<Response>, err: Option<Error>, cancel: CancelFunc?, mine: set<Body>)
    requires resp.Some? ==> resp.value.reader.Plain? && resp.value.reader.body in mine
    ensures Held(Attached(resp, err, cancel)) <= mine + SetOf(cancel)
  {
  }

  /** The attempt's own context, if attempts have a timeout. */
  method OwnContext(out: Outside, timed: bool) returns (cancel: CancelFunc?)
    modifies out`cancels
    ensures timed <==> cancel != null
    ensures cancel != null ==> fresh(cancel) && cancel !in old(out.Cancels()) && cancel.calls == 0
    ensures out.Cancels() == old(out.Cancels()) + SetOf(cancel) && |out.cancels| == |old(out.cancels)| + if timed then 1 else 0
  {
    cancel := null;
    if timed {
      cancel := out.WithTimeout();
    }
  }

  /** Call the round tripper and check what it answers. */
  method Trip(out: Outside, cfg: Settings, peer: Peer, payload: Option<Payload>, ghost cancel: CancelFunc?, ghost earlier: set<CancelFunc>)
    returns (reply: Reply, resp: Option<Response>, err: Option<Error>, sent: bool)
    requires Tidy(out.bodies, earlier, None) && (cfg.timed <==> cancel != null)
    modifies out`calls, out`bodies
    ensures out.calls == old(out.calls) + [Exchange(peer, payload, reply)] && out.bodies == old(out.bodies) + BodyOf(reply)
    ensures Answered(cfg, reply, Attached(resp, err, cancel), err, sent) && (resp.Some? || err.Some?)
    ensures resp.Some? ==> resp.value.reader.Plain?
    ensures BodyOf(reply) == if resp.Some? then {resp.value.reader.body} else {}
    ensures fresh(BodyOf(reply)) && BodyOf(reply) !! old(out.bodies) && forall b :: b in BodyOf(reply) ==> b.closes == 0
  {
    hide Answered;
    hide Checked;
    hide Tidy;
    hide Attached;
    hide WasSent;
    reply := out.RoundTrip(cfg.standard, peer, payload, earlier);
    resp, err := Checked(reply).0, Checked(reply).1;
    sent := WasSent(cfg, reply.wrote, resp.Some?, err.Some?);
    AnswerChecked(cfg, reply, cancel);
  }

  /** Send the request once and attach the attempt's cancel. */
  method Send(out: Outside, cfg: Settings, peer: Peer, payload: Option<Payload>)
    returns (reply: Reply, resp: Option<Response>, err: Option<Error>, sent: bool)
    requires Tidy(out.bodies, out.Cancels(), None)
    modifies out`calls, out`bodies, out`cancels
    ensures out.calls == old(out.calls) + [Exchange(peer, payload, reply)] && out.bodies == old(out.bodies) + BodyOf(reply)
    ensures |out.cancels| == |old(out.cancels)| + if cfg.timed then 1 else 0
    ensures Answered(cfg, reply, resp, err, sent)
    ensures Tidy(out.bodies, out.Cancels(), resp) && fresh(Held(resp))
  {
    hide Answered;
    hide Held;
    hide Attached;
    ghost var bodies, cancels := out.bodies, out.Cancels();
    var cancel := OwnContext(out, cfg.timed);
    var plain;
    reply, plain, err, sent := Trip(out, cfg, peer, payload, cancel, cancels);
    HeldIsNew(plain, err, cancel, BodyOf(reply));
    resp := Attach(plain, err, cancel, bodies, BodyOf(reply), cancels);
  }

  /** `payload` is the body it went out with, `reply` what the round tripper answered, `resp` and `err` what was made of it. */
  datatype Attempt = Attempt(
    peer: Peer, payload: Option<Payload>, reply: Reply, resp: Option<Response>, err: Option<Error>, sent: bool,
    cut: bool,                 // the caller gave up while it was in flight
    opinion: Option<bool>,     // what the custom retry condition, if there is one, thought of it
    outcome: Outcome, retry: bool)

  ghost predicate WasDecided(cfg: Settings, req: Request, a: Attempt) {
    var status := if a.resp.Some? then Some(a.resp.value.status) else None;
    && (a.opinion.Some? <==> cfg.custom)
    && Decide(cfg, req.nonIdempotent, a.opinion == Some(true), status, a.err, a.sent) == Decision(a.retry, a.outcome)
  }

  ghost function OpinionOn(a: Attempt): seq<Opinion> {
    if a.opinion.Some? then [Opinion(a.resp, a.err, a.opinion.value)] else []
  }

  /** Each attempt was answered, and is backed by a decision or was cut short by the caller. */
  ghost predicate Justified(cfg: Settings, req: Request, a: Attempt) {
    && Answered(cfg, a.reply, a.resp, a.err, a.sent)
    && if a.cut then a.err.Some? && a.opinion.None? && a.outcome.Neutral? && !a.retry else WasDecided(cfg, req, a)
  }

  lemma CutJustified(cfg: Settings, req: Request, a: Attempt)
    requires Answered(cfg, a.reply, a.resp, a.err, a.sent)
    requires a.cut && a.err.Some? && a.opinion.None? && a.outcome.Neutral? && !a.retry
    ensures Justified(cfg, req, a)
  {
  }

  lemma DecisionJustified(cfg: Settings, req: Request, a: Attempt)
    requires Answered(cfg, a.reply, a.resp, a.err, a.sent) && !a.cut && WasDecided(cfg, req, a)
    ensures Justified(cfg, req, a)
  {
  }

  /** Ask the retry condition, if there is a custom one. */
  method Ask(pk: Picker, out: Outside, cfg: Settings, resp: Option<Response>, err: Option<Error>, ghost l: Account)
    returns (opinion: Option<bool>)
    requires pk.Books(l)
    modifies out`opinions
    ensures pk.Books(l) && (opinion.Some? <==> cfg.custom)
    ensures out.opinions == old(out.opinions) + if opinion.Some? then [Opinion(resp, err, opinion.value)] else []
  {
    hide Picker.Books;
    opinion := None;
    if cfg.custom {
      var retry := out.NextUpstream(resp, err);
      opinion := Some(retry);
    }
    pk.BooksKept(l);
  }

  /** Decide on an answered attempt and release its peer. */
  method Judge(pk: Picker, out: Outside, peer: Peer, clock: Clock, cfg: Settings, req: Request,
               payload: Option<Payload>, reply: Reply, resp: Option<Response>, err: Option<Error>, sent: bool, ghost l: Account)
    returns (a: Attempt)
    requires pk.Books(l) && l.held == Some(peer) && peer in pk.Base().Pool() && Answered(cfg, reply, resp, err, sent)
    modifies pk.Base()`probeChecked, pk.Base().Pool(), clock, out`opinions
    ensures clock.now >= old(clock.now) && pk.Books(l.Closes(a.outcome))
    ensures a == Attempt(peer, payload, reply, resp, err, sent, false, a.opinion, a.outcome, a.retry) && Justified(cfg, req, a)
    ensures out.opinions == old(out.opinions) + OpinionOn(a)
  {
    hide Picker.Books;
    hide Answered;
    hide Justified;
    hide Decide;
    var opinion := Ask(pk, out, cfg, resp, err, l);
    var status := if resp.Some? then Some(resp.value.status) else None;
    var d := Decide(cfg, req.nonIdempotent, opinion == Some(true), status, err, sent);
    GiveBack(pk, peer, d.outcome, clock, l);
    a := Attempt(peer, payload, reply, resp, err, sent, false, opinion, d.outcome, d.retry);
    DecisionJustified(cfg, req, a);
  }

  /** Close a held response, which is none of the picker's business. */
  method DropLast(ghost pk: Picker, resp: Option<Response>, ghost bodies: set<Body>, ghost cancels: set<CancelFunc>, ghost l: Account)
    requires pk.Books(l) && Tidy(bodies, cancels, resp)
    modifies Held(resp)
    ensures pk.Books(l) && Tidy(bodies, cancels, None)
  {
    hide Picker.Books;
    hide Tidy;
    CloseLast(resp, bodies, cancels);
    pk.BooksKept(l);
  }

  /** Give a peer back without a verdict and drop a response. */
  method ReturnAndClose(pk: Picker, peer: Peer, clock: Clock, resp: Option<Response>,
                        ghost bodies: set<Body>, ghost cancels: set<CancelFunc>, ghost l: Account)
    requires pk.Books(l) && l.held == Some(peer) && peer in pk.Base().Pool() && Tidy(bodies, cancels, resp)
    modifies pk.Base()`probeChecked, pk.Base().Pool(), clock, Held(resp)
    ensures clock.now >= old(clock.now) && pk.Books(l.Closes(Neutral)) && Tidy(bodies, cancels, None)
  {
    hide Picker.Books;
    GiveBack(pk, peer, Neutral, clock, l);
    DropLast(pk, resp, bodies, cancels, l.Closes(Neutral));
  }

  /** The caller gave up on the attempt: nobody is blamed, and its body is dropped. */
  method CutShort(pk: Picker, peer: Peer, clock: Clock, cfg: Settings, req: Request,
                  payload: Option<Payload>, reply: Reply, resp: Option<Response>, err: Option<Error>, sent: bool,
                  ghost bodies: set<Body>, ghost cancels: set<CancelFunc>, ghost l: Account)
    returns (a: Attempt)
    requires pk.Books(l) && l.held == Some(peer) && peer in pk.Base().Pool()
    requires Answered(cfg, reply, resp, err, sent) && err.Some? && Tidy(bodies, cancels, resp)
    modifies pk.Base()`probeChecked, pk.Base().Pool(), clock, Held(resp)
    ensures clock.now >= old(clock.now) && pk.Books(l.Closes(a.outcome))
    ensures a == Attempt(peer, payload, reply, resp, err, sent, true, None, Neutral, false) && Justified(cfg, req, a)
    ensures Tidy(bodies, cancels, None)
  {
    hide Picker.Books;
    hide Answered;
    hide Justified;
    hide Tidy;
    ReturnAndClose(pk, peer, clock, resp, bodies, cancels, l);
    a := Attempt(peer, payload, reply, resp, err, sent, true, None, Neutral, false);
    CutJustified(cfg, req, a);
  }

  /** Whether an error is the caller's doing. */
  method HasGivenUp(pk: Picker, out: Outside, err: Option<Error>, ghost l: Account) returns (done: bool)
    requires pk.Books(l)
    modifies out`givenUp, out`polls
    ensures pk.Books(l) && (old(out.givenUp) ==> out.givenUp) && (done ==> err.Some? && out.givenUp)
    ensures if err.Some? then done == out.givenUp && out.polls == old(out.polls) + 1
            else out.givenUp == old(out.givenUp) && out.polls == old(out.polls)
  {
    hide Picker.Books;
    done := false;
    if err.Some? {
      done := out.ContextErr();
    }
    pk.BooksKept(l);
  }

  /** Judge an answered attempt, unless the caller has given up on it. */
  method Conclude(pk: Picker, out: Outside, peer: Peer, clock: Clock, cfg: Settings, req: Request,
                  payload: Option<Payload>, reply: Reply, resp: Option<Response>, err: Option<Error>, sent: bool, ghost l: Account)
    returns (a: Attempt)
    requires pk.Books(l) && l.held == Some(peer) && peer in pk.Base().Pool() && Answered(cfg, reply, resp, err, sent)
    requires Tidy(out.bodies, out.Cancels(), resp)
    modifies pk.Base()`probeChecked, pk.Base().Pool(), clock, out`givenUp, out`polls, out`opinions, Held(resp)
    ensures clock.now >= old(clock.now) && pk.Books(l.Closes(a.outcome))
    ensures a == Attempt(peer, payload, reply, resp, err, sent, a.cut, a.opinion, a.outcome, a.retry) && Justified(cfg, req, a)
    ensures out.opinions == old(out.opinions) + OpinionOn(a)
    ensures a.cut <==> err.Some? && out.givenUp
    ensures out.polls == old(out.polls) + (if err.Some? then 1 else 0) && (err.None? ==> out.givenUp == old(out.givenUp))
    ensures Tidy(out.bodies, out.Cancels(), if a.cut then None else resp)
  {
    hide Picker.Books;
    hide Answered;
    hide Justified;
    var done := HasGivenUp(pk, out, err, l);
    if done {
      a := CutShort(pk, peer, clock, cfg, req, payload, reply, resp, err, sent, out.bodies, out.Cancels(), l);
    } else {
      a := Judge(pk, out, peer, clock, cfg, req, payload, reply, resp, err, sent, l);
    }
  }

  /** Send to a peer whose address is known; the peer is still out. */
  method Fly(pk: Picker, out: Outside, peer: Peer, payload: Option<Payload>, cfg: Settings, ghost l: Account)
    returns (reply: Reply, resp: Option<Response>, err: Option<Error>, sent: bool)
    requires pk.Books(l) && Tidy(out.bodies, out.Cancels(), None)
    modifies out`calls, out`bodies, out`cancels
    ensures pk.Books(l)
    ensures out.calls == old(out.calls) + [Exchange(peer, payload, reply)] && out.bodies == old(out.bodies) + BodyOf(reply)
    ensures |out.cancels| == |old(out.cancels)| + if cfg.timed then 1 else 0
    ensures Answered(cfg, reply, resp, err, sent)
    ensures Tidy(out.bodies, out.Cancels(), resp) && fresh(Held(resp))
  {
    hide Picker.Books;
    hide Answered;
    reply, resp, err, sent := Send(out, cfg, peer, payload);
    pk.BooksKept(l);
  }

  /** What an attempt adds to the record. */
  ghost function DealtWith(d: Dealings, cfg: Settings, a: Attempt): Dealings {
    d.(calls := d.calls + [Exchange(a.peer, a.payload, a.reply)], bodies := d.bodies + BodyOf(a.reply),
       contexts := d.contexts + (if cfg.timed then 1 else 0), opinions := d.opinions + OpinionOn(a),
       polls := d.polls + (if a.err.Some? then 1 else 0), givenUp := a.cut)
  }

  /** One attempt, from sending to the release of its peer. */
  method AttemptPeer(pk: Picker, out: Outside, peer: Peer, payload: Option<Payload>, clock: Clock, cfg: Settings, req: Request, ghost l: Account)
    returns (a: Attempt)
    requires pk.Books(l) && l.held == Some(peer) && peer in pk.Base().Pool() && Tidy(out.bodies, out.Cancels(), None) && !out.givenUp
    modifies pk.Base()`probeChecked, pk.Base().Pool(), clock, out
    ensures clock.now >= old(clock.now) && pk.Books(l.Closes(a.outcome)) && a.peer == peer && a.payload == payload
    ensures Justified(cfg, req, a) && out.Record() == DealtWith(old(out.Record()), cfg, a)
    ensures Tidy(out.bodies, out.Cancels(), if a.cut then None else a.resp) && fresh(Held(a.resp))
  {
    hide Picker.Books;
    hide Answered;
    hide Justified;
    hide Tidy;
    var reply, resp, err, sent := Fly(pk, out, peer, payload, cfg, l);
    a := Conclude(pk, out, peer, clock, cfg, req, payload, reply, resp, err, sent, l);
  }

  // ---------- A whole call ----------

  datatype Exit =
    | CanceledBefore          // the caller gave up before a Pick
    | Exhaustion              // Pick returned nil
    | NoAddress(peer: Peer)   // the picked peer has no backend address
    | NoBody(peer: Peer)      // the body could not be produced for the attempt
    | CanceledDuring          // the caller gave up during an attempt
    | Final                   // an attempt was not to be retried

  /** Where a call stands: the last attempt's result, the attempts, and how the call ended if it did. */
  datatype Call = Call(resp: Option<Response>, err: Option<Error>, attempts: seq<Attempt>, exit: Option<Exit>)

  ghost function PeersOf(attempts: seq<Attempt>): (ps: seq<Peer>)
    ensures |ps| == |attempts|
  {
    seq(|attempts|, i requires 0 <= i < |attempts| => attempts[i].peer)
  }

  ghost function OutcomesOf(attempts: seq<Attempt>): (os: seq<Outcome>)
    ensures |os| == |attempts|
  {
    seq(|attempts|, i requires 0 <= i < |attempts| => attempts[i].outcome)
  }

  ghost function CallsOf(attempts: seq<Attempt>): (es: seq<Exchange>)
    ensures |es| == |attempts|
  {
    seq(|attempts|, i requires 0 <= i < |attempts| => Exchange(attempts[i].peer, attempts[i].payload, attempts[i].reply))
  }

  /** The opinions asked for, in order. */
  ghost function OpinionsOn(attempts: seq<Attempt>): seq<Opinion> {
    if attempts == [] then [] else OpinionsOn(attempts[..|attempts| - 1]) + OpinionOn(attempts[|attempts| - 1])
  }

  /** How many attempts ended in an error; after those the caller's context was looked at. */
  ghost function ErrorsIn(attempts: seq<Attempt>): nat {
    if attempts == [] then 0
    else ErrorsIn(attempts[..|attempts| - 1]) + if attempts[|attempts| - 1].err.Some? then 1 else 0
  }

  lemma OneMoreAttempt(attempts: seq<Attempt>, a: Attempt)
    ensures PeersOf(attempts + [a]) == PeersOf(attempts) + [a.peer]
    ensures OutcomesOf(attempts + [a]) == OutcomesOf(attempts) + [a.outcome]
    ensures CallsOf(attempts + [a]) == CallsOf(attempts) + [Exchange(a.peer, a.payload, a.reply)]
    ensures OpinionsOn(attempts + [a]) == OpinionsOn(attempts) + OpinionOn(a)
    ensures ErrorsIn(attempts + [a]) == ErrorsIn(attempts) + if a.err.Some? then 1 else 0
  {
    assert (attempts + [a])[..|attempts|] == attempts;
  }

  /** The picker's account of the attempts, all given back. */
  ghost function AccountOf(start: Journal, attempts: seq<Attempt>): Account {
    Account(start, PeersOf(attempts), OutcomesOf(attempts), None)
  }

  /** The same at the end of a call: a peer that got no attempt was given back neutrally. */
  ghost function FinalAccount(start: Journal, attempts: seq<Attempt>, exit: Exit): Account {
    var l := AccountOf(start, attempts);
    if exit.NoAddress? || exit.NoBody? then l.Holds(exit.peer).Closes(Neutral) else l
  }

  lemma AccountOneMore(start: Journal, attempts: seq<Attempt>, a: Attempt)
    ensures AccountOf(start, attempts).Holds(a.peer).Closes(a.outcome) == AccountOf(start, attempts + [a])
  {
    OneMoreAttempt(attempts, a);
  }

  /**
    The bodies the attempts went out with: where they are replayed, the k-th attempt had
    the k-th body produced, no two the same; elsewhere none was produced, and all attempts
    had the caller's own, if there is one.
  */
  ghost predicate Supplied(t: Job, attempts: seq<Attempt>, payloads: seq<Payload>) {
    if Replayed(t.mode) then
      && |payloads| == |attempts| && Distinct(payloads)
      && forall k :: 0 <= k < |attempts| ==> attempts[k].payload == Some(payloads[k])
    else payloads == [] && forall k :: 0 <= k < |attempts| ==> attempts[k].payload == t.req.body
  }

  /** The exits before which the caller's context was looked at once more than there were attempts. */
  ghost function LastLook(exit: Option<Exit>): nat {
    if exit.Some? && !exit.value.CanceledDuring? && !exit.value.Final? then 1 else 0
  }

  /**
    The record of what the call did outside matches it: one call of the round tripper per
    attempt, to that attempt's peer and with its body; one context each if attempts have a
    timeout; the custom retry condition's opinion of each it was asked about; no body
    produced that was not sent; one failure to produce one, if that ended the call; a look at
    the caller's context before every Pick, `looks` counting those without an attempt so
    far, and after every error; and the call over as soon as the caller is seen to have given up.
  */
  ghost predicate OnRecord(t: Job, c: Call, d: Dealings, looks: nat) {
    && d.calls == CallsOf(c.attempts) && d.bodies == BodiesOf(d.calls)
    && d.contexts == (if t.cfg.timed then |c.attempts| else 0)
    && d.opinions == OpinionsOn(c.attempts) && Supplied(t, c.attempts, d.payloads)
    && d.failures == (if c.exit.Some? && c.exit.value.NoBody? then 1 else 0)
    && d.polls == |c.attempts| + ErrorsIn(c.attempts) + looks
    && (d.givenUp <==> c.exit == Some(CanceledBefore) || c.exit == Some(CanceledDuring))
  }

  /** With the body drawn for the attempt, where it needs one of its own. */
  ghost function Drawn(d: Dealings, t: Job, payload: Option<Payload>): Dealings {
    if Replayed(t.mode) && payload.Some? then d.(payloads := d.payloads + [payload.value]) else d
  }

  ghost predicate GoodPayload(t: Job, d: Dealings, payload: Option<Payload>) {
    if Replayed(t.mode) then payload.Some? && payload.value !in d.payloads else payload == t.req.body
  }

  lemma RecordOneMore(t: Job, c: Call, a: Attempt, d: Dealings)
    requires OnRecord(t, c, d, 1) && c.exit.None? && GoodPayload(t, d, a.payload) && (a.retry ==> !a.cut)
    ensures OnRecord(t, After(c, a), DealtWith(Drawn(d, t, a.payload), t.cfg, a), 0)
  {
    OneMoreAttempt(c.attempts, a);
    BodiesOneMore(d.calls, Exchange(a.peer, a.payload, a.reply));
    SuppliedOneMore(t, c.attempts, a, d);
    hide Supplied;
  }

  lemma SuppliedOneMore(t: Job, attempts: seq<Attempt>, a: Attempt, d: Dealings)
    requires Supplied(t, attempts, d.payloads) && GoodPayload(t, d, a.payload)
    ensures Supplied(t, attempts + [a], Drawn(d, t, a.payload).payloads)
  {
  }

  /** The attempts made so far: each retried, justified and to a peer with an address, the last one's result held. */
  ghost predicate Underway(cfg: Settings, req: Request, backends: set<Peer>, c: Call) {
    && c.exit.None?
    && (forall k :: 0 <= k < |c.attempts| ==>
          c.attempts[k].retry && c.attempts[k].peer in backends && Justified(cfg, req, c.attempts[k]))
    && if c.attempts == [] then c.resp.None? && c.err.None?
       else c.resp == c.attempts[|c.attempts| - 1].resp && c.err == c.attempts[|c.attempts| - 1].err
  }

  /** What a finished call may look like, given its attempts and the body mode. */
  ghost predicate Finished(cfg: Settings, req: Request, mode: BodyMode, backends: set<Peer>, c: Call) {
    var n := |c.attempts|;
    && c.exit.Some?
    && (forall k :: 0 <= k < n ==> c.attempts[k].peer in backends && Justified(cfg, req, c.attempts[k]))
    && (forall k :: 0 <= k < n - 1 ==> c.attempts[k].retry)
    && (n > 0 && !c.exit.value.CanceledDuring? && !c.exit.value.Final? ==> c.attempts[n - 1].retry)
    && match c.exit.value
       case CanceledBefore => c.resp.None? && c.err == Some(Canceled)
       case NoAddress(p) => c.resp.None? && c.err == Some(NoBackendAddress) && p !in backends
       case NoBody(p) =>
         c.resp.None? && c.err == Some(BodyUnavailable) && p in backends && Replayed(mode)
       case CanceledDuring => n > 0 && c.resp.None? && c.err == Some(Canceled) && c.attempts[n - 1].cut
       case Final =>
         n > 0 && !c.attempts[n - 1].retry && !c.attempts[n - 1].cut
         && c.resp == c.attempts[n - 1].resp && c.err == c.attempts[n - 1].err
       case Exhaustion =>
         if n == 0 then c.resp.None? && c.err == Some(NoPeerAvailable)
         else c.resp == c.attempts[n - 1].resp && c.err == c.attempts[n - 1].err
  }

  /** How a call goes on after an attempt. */
  function After(c: Call, a: Attempt): Call {
    if a.retry then Call(a.resp, a.err, c.attempts + [a], None)
    else if a.cut then Call(None, Some(Canceled), c.attempts + [a], Some(CanceledDuring))
    else Call(a.resp, a.err, c.attempts + [a], Some(Final))
  }

  lemma AfterAttempt(cfg: Settings, req: Request, mode: BodyMode, backends: set<Peer>, c: Call, a: Attempt)
    requires Underway(cfg, req, backends, c) && Justified(cfg, req, a) && a.peer in backends
    ensures var c' := After(c, a);
            && c'.resp == (if a.cut then None else a.resp)
            && (a.retry ==> !a.cut)
            && if a.retry then Underway(cfg, req, backends, c') else Finished(cfg, req, mode, backends, c')
  {
    hide Answered;
  }

  function Ended(c: Call, err: Error, exit: Exit): Call {
    Call(None, Some(err), c.attempts, Some(exit))
  }

  /** No peer is left: the last attempt's result stands, if there was one. */
  function Exhausting(c: Call): Call {
    Call(c.resp, if c.resp.None? && c.err.None? then Some(NoPeerAvailable) else c.err, c.attempts, Some(Exhaustion))
  }

  lemma EndsUnpicked(t: Job, c: Call, d: Dealings)
    requires Underway(t.cfg, t.req, t.backends, c) && OnRecord(t, c, d, 1)
    ensures Finished(t.cfg, t.req, t.mode, t.backends, Ended(c, Canceled, CanceledBefore))
    ensures Finished(t.cfg, t.req, t.mode, t.backends, Exhausting(c)) && OnRecord(t, Exhausting(c), d, 1)
  {
    if c.attempts != [] {
      assert Justified(t.cfg, t.req, c.attempts[|c.attempts| - 1]);
    }
  }

  /** The caller was seen to have given up. */
  lemma EndsGivenUp(t: Job, c: Call, d: Dealings)
    requires c.exit.None? && OnRecord(t, c, d.(givenUp := false), 1) && d.givenUp
    ensures OnRecord(t, Ended(c, Canceled, CanceledBefore), d, 1)
  {
  }

  lemma EndsUnused(t: Job, c: Call, d: Dealings, peer: Peer)
    requires Underway(t.cfg, t.req, t.backends, c) && OnRecord(t, c, d, 1)
    ensures peer !in t.backends ==>
              && Finished(t.cfg, t.req, t.mode, t.backends, Ended(c, NoBackendAddress, NoAddress(peer)))
              && OnRecord(t, Ended(c, NoBackendAddress, NoAddress(peer)), d, 1)
    ensures peer in t.backends && Replayed(t.mode) ==>
              && Finished(t.cfg, t.req, t.mode, t.backends, Ended(c, BodyUnavailable, NoBody(peer)))
              && OnRecord(t, Ended(c, BodyUnavailable, NoBody(peer)), d.(failures := d.failures + 1), 1)
  {
  }

  /** A request and how it is to be handled. */
  datatype Job = Job(cfg: Settings, req: Request, mode: BodyMode, backends: set<Peer>)

  ghost function AccountNow(start: Journal, c: Call): Account {
    if c.exit.None? then AccountOf(start, c.attempts) else FinalAccount(start, c.attempts, c.exit.value)
  }

  /** The call is under way or properly finished, and everything it received is accounted for. */
  ghost predicate InHand(t: Job, out: Outside, c: Call)
    reads out, out.bodies, out.Cancels()
  {
    && OnRecord(t, c, out.Record(), LastLook(c.exit)) && Tidy(out.bodies, out.Cancels(), c.resp)
    && if c.exit.None? then Underway(t.cfg, t.req, t.backends, c) else Finished(t.cfg, t.req, t.mode, t.backends, c)
  }

  /** The same in the middle of a turn, the caller having been seen not to have given up, with `kept` still held. */
  ghost predicate InTurn(t: Job, out: Outside, c: Call, kept: Option<Response>)
    reads out, out.bodies, out.Cancels()
  {
    && OnRecord(t, c, out.Record(), 1) && Tidy(out.bodies, out.Cancels(), kept) && Underway(t.cfg, t.req, t.backends, c)
  }

  /** Attempt the request on a picked peer with a body that suits, nothing of earlier attempts being held any more. */
  method Advance(pk: Picker, out: Outside, peer: Peer, payload: Option<Payload>, clock: Clock, t: Job, c: Call,
                 ghost start: Journal, ghost d: Dealings) returns (c': Call)
    requires pk.Books(AccountOf(start, c.attempts).Holds(peer)) && peer in pk.Base().Pool() && peer in t.backends
    requires Underway(t.cfg, t.req, t.backends, c) && OnRecord(t, c, d, 1) && GoodPayload(t, d, payload)
    requires out.Record() == Drawn(d, t, payload) && Tidy(out.bodies, out.Cancels(), None)
    modifies pk.Base()`probeChecked, pk.Base().Pool(), clock, out
    ensures clock.now >= old(clock.now)
    ensures pk.Books(AccountNow(start, c')) && InHand(t, out, c') && |c'.attempts| == |c.attempts| + 1
    ensures c'.exit != Some(Exhaustion) && fresh(Held(c'.resp))
  {
    hide Picker.Books;
    hide Tidy;
    hide Justified;
    hide Finished;
    hide GoodPayload;
    NotGivenUp(t, c, d, payload);
    hide OnRecord;
    hide Underway;
    var a := AttemptPeer(pk, out, peer, payload, clock, t.cfg, t.req, AccountOf(start, c.attempts).Holds(peer));
    AccountOneMore(start, c.attempts, a);
    AfterAttempt(t.cfg, t.req, t.mode, t.backends, c, a);
    RecordOneMore(t, c, a, d);
    c' := After(c, a);
  }

  lemma NotGivenUp(t: Job, c: Call, d: Dealings, payload: Option<Payload>)
    requires Underway(t.cfg, t.req, t.backends, c) && OnRecord(t, c, d, 1)
    ensures !Drawn(d, t, payload).givenUp && c.exit.None?
  {
  }

  /** Produce the body for an attempt, where it needs one of its own. */
  method Produce(pk: Picker, out: Outside, t: Job, ghost l: Account) returns (ok: bool, payload: Option<Payload>)
    requires pk.Books(l)
    modifies out`payloads, out`failures
    ensures pk.Books(l) && (!ok ==> Replayed(t.mode))
    ensures if ok then GoodPayload(t, old(out.Record()), payload) && out.Record() == Drawn(old(out.Record()), t, payload)
            else out.Record() == old(out.Record()).(failures := old(out.failures) + 1)
  {
    hide Picker.Books;
    ok, payload := true, t.req.body;
    if t.mode.FromGetBody? || t.mode.Seekable? || t.mode.Buffered? {
      payload := out.GetBody();
      ok := payload.Some?;
    }
    pk.BooksKept(l);
  }

  /** Produce the body for an attempt, which may fail, and make the attempt. */
  method Proceed(pk: Picker, out: Outside, peer: Peer, clock: Clock, t: Job, c: Call, ghost start: Journal) returns (c': Call)
    requires pk.Books(AccountOf(start, c.attempts).Holds(peer)) && peer in pk.Base().Pool() && peer in t.backends
    requires InTurn(t, out, c, None)
    modifies pk.Base()`probeChecked, pk.Base().Pool(), clock, out
    ensures clock.now >= old(clock.now)
    ensures pk.Books(AccountNow(start, c')) && InHand(t, out, c') && (c'.exit.Some? || |c'.attempts| == |c.attempts| + 1)
    ensures c'.exit != Some(Exhaustion) && fresh(Held(c'.resp))
  {
    hide Picker.Books;
    hide Underway;
    hide Finished;
    hide OnRecord;
    hide GoodPayload;
    hide Drawn;
    hide Replayed;
    ghost var l, d := AccountOf(start, c.attempts).Holds(peer), out.Record();
    var ok, payload := Produce(pk, out, t, l);
    if ok {
      c' := Advance(pk, out, peer, payload, clock, t, c, start, d);
    } else {
      EndsUnused(t, c, d, peer);
      GiveBack(pk, peer, Neutral, clock, l);
      c' := Ended(c, BodyUnavailable, NoBody(peer));
    }
  }

  /** The picked peer has no address: give it back, drop what is held, and end the call. */
  method NoWhere(pk: Picker, out: Outside, peer: Peer, clock: Clock, t: Job, c: Call, ghost start: Journal) returns (c': Call)
    requires pk.Books(AccountOf(start, c.attempts).Holds(peer)) && peer in pk.Base().Pool() && peer !in t.backends
    requires InTurn(t, out, c, c.resp)
    modifies pk.Base()`probeChecked, pk.Base().Pool(), clock, Held(c.resp)
    ensures clock.now >= old(clock.now)
    ensures pk.Books(AccountNow(start, c')) && InHand(t, out, c') && c'.exit.Some? && c'.exit != Some(Exhaustion) && c'.resp.None?
  {
    hide Picker.Books;
    hide Underway;
    hide Finished;
    hide OnRecord;
    hide Tidy;
    ReturnAndClose(pk, peer, clock, c.resp, out.bodies, out.Cancels(), AccountOf(start, c.attempts).Holds(peer));
    EndsUnused(t, c, out.Record(), peer);
    c' := Ended(c, NoBackendAddress, NoAddress(peer));
  }

  /** Deal with a picked peer, up to its release: give up, finish, or leave the attempt to be retried. */
  method TryPicked(pk: Picker, out: Outside, peer: Peer, clock: Clock, t: Job, c: Call, ghost start: Journal) returns (c': Call)
    requires pk.Books(AccountOf(start, c.attempts).Holds(peer)) && peer in pk.Base().Pool() && InTurn(t, out, c, c.resp)
    modifies pk.Base()`probeChecked, pk.Base().Pool(), clock, out, Held(c.resp)
    ensures clock.now >= old(clock.now)
    ensures pk.Books(AccountNow(start, c')) && InHand(t, out, c') && (c'.exit.Some? || |c'.attempts| == |c.attempts| + 1)
    ensures c'.exit != Some(Exhaustion) && fresh(Held(c'.resp))
  {
    hide Picker.Books;
    hide Tidy;
    hide Underway;
    hide Finished;
    hide OnRecord;
    if peer !in t.backends {
      c' := NoWhere(pk, out, peer, clock, t, c, start);
    } else {
      DropLast(pk, c.resp, out.bodies, out.Cancels(), AccountOf(start, c.attempts).Holds(peer));
      c' := Proceed(pk, out, peer, clock, t, c, start);
    }
  }

  /** The caller gave up before a Pick. */
  method GiveUp(pk: Picker, out: Outside, t: Job, c: Call, ghost start: Journal, ghost d: Dealings) returns (c': Call)
    requires pk.Books(AccountOf(start, c.attempts)) && Underway(t.cfg, t.req, t.backends, c) && Tidy(out.bodies, out.Cancels(), c.resp)
    requires OnRecord(t, c, d, 1) && out.Record() == d.(givenUp := true)
    modifies Held(c.resp)
    ensures pk.Books(AccountNow(start, c')) && InHand(t, out, c') && c'.exit == Some(CanceledBefore) && c'.resp.None?
    ensures c'.attempts == c.attempts
  {
    hide Picker.Books;
    hide Tidy;
    hide Finished;
    NotGivenUp(t, c, d, None);
    assert out.Record().(givenUp := false) == d by {
      assert !d.givenUp;
    }
    hide Underway;
    hide OnRecord;
    DropLast(pk, c.resp, out.bodies, out.Cancels(), AccountOf(start, c.attempts));
    EndsUnpicked(t, c, d);
    EndsGivenUp(t, c, out.Record());
    c' := Ended(c, Canceled, CanceledBefore);
  }

  /** The end of a call, for the picker: every peer picked was given back once, as the account says. */
  ghost predicate Rendered(pk: Picker, start: Journal, c: Call)
    reads pk.Base(), pk.Base().Pool()
  {
    var l := AccountNow(start, c);
    && pk.Base().Consistent() && Accounted(pk.Base(), pk.Base().Past(), l)
    && Orderly(l.picked, pk.Usable()) && |l.picked| <= |pk.Usable()|
  }

  lemma BooksRendered(pk: Picker, start: Journal, c: Call)
    requires pk.Books(AccountNow(start, c))
    ensures c.exit.Some? ==> Rendered(pk, start, c)
    ensures c.exit.None? ==> |c.attempts| <= |pk.Usable()|
  {
    hide Picker.Books;
    hide Accounted;
    hide Orderly;
    hide RRPicker.Consistent;
    BooksMean(pk, AccountNow(start, c));
  }

  /** Nobody was left to pick: the last Pick found every group it consulted barren of untried peers. */
  ghost predicate RanDry(pk: Picker, attempts: seq<Attempt>, log: seq<Section>, w: Span) {
    Exhausted(log, Consulted(pk.Base().primary, pk.Base().backup, EnteredBackups(PeersOf(attempts))), Tried(PeersOf(attempts)), w)
  }

  /** Pick, and deal with the peer if there is one. */
  method PickAndTry(pk: Picker, out: Outside, clock: Clock, t: Job, c: Call, ghost start: Journal)
    returns (c': Call, ghost log: seq<Section>)
    requires pk.Books(AccountOf(start, c.attempts)) && InTurn(t, out, c, c.resp)
    modifies pk.Objects(), pk.Base().Pool(), clock, out, Held(c.resp)
    ensures clock.now >= old(clock.now) && InHand(t, out, c') && fresh(Held(c'.resp) - Held(c.resp))
    ensures c'.exit.None? ==> pk.Books(AccountNow(start, c')) && |c.attempts| < |c'.attempts| <= |pk.Usable()|
    ensures c'.exit.Some? ==> Rendered(pk, start, c')
    ensures c'.exit == Some(Exhaustion) ==>
              RanDry(pk, c'.attempts, log, Span(old(clock.now), clock.now, start, pk.Base().Past()))
  {
    hide Picker.Books;
    hide Picker.Promised;
    hide Tidy;
    hide Underway;
    hide Finished;
    hide OnRecord;
    hide Exhausted;
    hide Consulted;
    hide EnteredBackups;
    hide Tried;
    hide Orderly;
    hide Accounted;
    hide RRPicker.Consistent;
    hide RRPicker.Past;
    hide Picker.Usable;
    var peer;
    ghost var before;
    peer, log, before := PickNext(pk, clock, AccountOf(start, c.attempts));
    if peer == null {
      EndsUnpicked(t, c, out.Record());
      c' := Exhausting(c);
    } else {
      c' := TryPicked(pk, out, peer, clock, t, c, start);
      BooksRendered(pk, start, c');
    }
  }

  /** Look whether the caller has given up. */
  method Poll(pk: Picker, out: Outside, t: Job, c: Call, ghost start: Journal) returns (done: bool)
    requires pk.Books(AccountOf(start, c.attempts)) && InHand(t, out, c) && c.exit.None?
    modifies out`givenUp, out`polls
    ensures pk.Books(AccountOf(start, c.attempts)) && Underway(t.cfg, t.req, t.backends, c) && Tidy(out.bodies, out.Cancels(), c.resp)
    ensures done == out.givenUp && OnRecord(t, c, out.Record().(givenUp := false), 1)
  {
    hide Picker.Books;
    hide Underway;
    hide Finished;
    done := out.ContextErr();
    pk.BooksKept(AccountOf(start, c.attempts));
  }

  /** One turn of the loop.  A caller seen to have given up gets no further Pick. */
  method Turn(pk: Picker, out: Outside, clock: Clock, t: Job, c: Call, ghost start: Journal)
    returns (c': Call, ghost log: seq<Section>)
    requires pk.Books(AccountOf(start, c.attempts)) && InHand(t, out, c) && c.exit.None?
    modifies pk.Objects(), pk.Base().Pool(), clock, out, Held(c.resp)
    ensures clock.now >= old(clock.now) && InHand(t, out, c') && fresh(Held(c'.resp) - Held(c.resp))
    ensures c'.exit.None? ==> pk.Books(AccountNow(start, c')) && |c.attempts| < |c'.attempts| <= |pk.Usable()|
    ensures c'.exit.Some? ==> Rendered(pk, start, c')
    ensures c'.exit == Some(Exhaustion) ==>
              RanDry(pk, c'.attempts, log, Span(old(clock.now), clock.now, start, pk.Base().Past()))
  {
    hide Picker.Books;
    hide InHand;
    hide OnRecord;
    hide Underway;
    hide Tidy;
    hide RanDry;
    hide Rendered;
    hide RRPicker.Past;
    hide Picker.Usable;
    var done := Poll(pk, out, t, c, start);
    if done {
      c' := GiveUp(pk, out, t, c, start, out.Record().(givenUp := false));
      BooksRendered(pk, start, c');
      log := [];
    } else {
      c', log := PickAndTry(pk, out, clock, t, c, start);
    }
  }

  lemma CallBegins(pk: Picker, t: Job, out: Outside)
    requires pk.Valid() && pk.Base().Consistent() && pk.Base().tried == {} && !pk.Base().backupPhase
    requires out.Record() == NoDealings
    ensures var c := Call(None, None, [], None);
            pk.Books(AccountOf(pk.Base().Past(), c.attempts)) && InHand(t, out, c)
  {
    BooksOpen(pk);
    hide Picker.Books;
    assert AccountOf(pk.Base().Past(), []) == Account(pk.Base().Past(), [], [], None);
  }

  method Loop(pk: Picker, out: Outside, clock: Clock, t: Job) returns (c: Call, ghost log: seq<Section>)
    requires pk.Valid() && pk.Base().Consistent() && pk.Base().tried == {} && !pk.Base().backupPhase
    requires out.Record() == NoDealings
    modifies pk.Objects(), pk.Base().Pool(), clock, out
    ensures InHand(t, out, c) && c.exit.Some? && Rendered(pk, old(pk.Base().Past()), c)
    ensures c.exit == Some(Exhaustion) ==>
              RanDry(pk, c.attempts, log, Span(old(clock.now), clock.now, old(pk.Base().Past()), pk.Base().Past()))
  {
    hide Picker.Books;
    hide InHand;
    hide Rendered;
    hide RanDry;
    hide RRPicker.Consistent;
    hide RRPicker.Past;
    hide Picker.Valid;
    ghost var start := pk.Base().Past();
    CallBegins(pk, t, out);
    c, log := Call(None, None, [], None), [];
    while c.exit.None?
      invariant InHand(t, out, c) && fresh(Held(c.resp)) && clock.now >= old(clock.now)
      invariant c.exit.None? ==> pk.Books(AccountOf(start, c.attempts))
      invariant c.exit.Some? ==> Rendered(pk, start, c)
      invariant c.exit == Some(Exhaustion) ==>
                  RanDry(pk, c.attempts, log, Span(old(clock.now), clock.now, start, pk.Base().Past()))
      decreases if c.exit.Some? then 0 else 1, |pk.Usable()| - |c.attempts|
    {
      ghost var since := clock.now;
      c, log := Turn(pk, out, clock, t, c, start);
      DrySince(pk, c.attempts, log, old(clock.now), since, clock.now, start, pk.Base().Past());
    }
  }

  lemma DrySince(pk: Picker, attempts: seq<Attempt>, log: seq<Section>, since: int, later: int, until: int, was: Journal, now: Journal)
    requires since <= later
    ensures RanDry(pk, attempts, log, Span(later, until, was, now)) ==> RanDry(pk, attempts, log, Span(since, until, was, now))
  {
    hide Exhausted;
    hide Within;
    LongerSpan(since, later, until, was, now);
    Widened(log, Consulted(pk.Base().primary, pk.Base().backup, EnteredBackups(PeersOf(attempts))), Tried(PeersOf(attempts)),
            Span(later, until, was, now), Span(since, until, was, now), null);
  }

  // ---------- What a call can be relied on for ----------

  /** A request that may not be replayed was sent at most once, and then in the last attempt. */
  ghost predicate SentOnce(attempts: seq<Attempt>) {
    forall k :: 0 <= k < |attempts| - 1 ==> !attempts[k].sent && !attempts[k].reply.consumed
  }

  /**
    Streaming bodies are consumed at most once: by the method gate no sent attempt of
    a gated request is retried, and without a second usable peer there is no second
    attempt, because no picker returns a down peer or the same peer twice.
  */
  lemma StreamReadOnce(cfg: Settings, req: Request, attempts: seq<Attempt>, usable: set<Peer>)
    requires forall k :: 0 <= k < |attempts| ==> Justified(cfg, req, attempts[k])
    requires forall k :: 0 <= k < |attempts| - 1 ==> attempts[k].retry
    requires |attempts| <= |usable| && !MayNeedReplay(cfg, req.nonIdempotent, |usable| > 1)
    ensures SentOnce(attempts)
  {
    forall k | 0 <= k < |attempts| - 1 ensures !attempts[k].sent && !attempts[k].reply.consumed {
      assert Justified(cfg, req, attempts[k]) && attempts[k].retry;
    }
  }

  lemma StreamsAreReadOnce(pk: Picker, t: Job, out: Outside, start: Journal, c: Call)
    requires InHand(t, out, c) && c.exit.Some? && Rendered(pk, start, c)
    ensures !MayNeedReplay(t.cfg, t.req.nonIdempotent, |pk.Usable()| > 1) ==> SentOnce(c.attempts)
  {
    hide Tidy;
    hide Justified;
    hide Accounted;
    hide RRPicker.Consistent;
    if !MayNeedReplay(t.cfg, t.req.nonIdempotent, |pk.Usable()| > 1) {
      StreamReadOnce(t.cfg, t.req, c.attempts, pk.Usable());
    }
  }

  /**
    The whole loop, for every behaviour of the round tripper, the retry condition, the
    caller, and all other requests.  The round tripper is called once per attempt, and
    its k-th answer is what the k-th attempt is judged by.  Every peer picked is given back
    exactly once, with the outcome of its attempt; every response body received and every
    cancel is spent exactly once, except those the returned response still holds; the
    result is that of the last attempt, or says that no peer was available, or why the
    call was abandoned; and the loop ends after at most one attempt per usable peer.
  */
  method Serve(pk: Picker, out: Outside, clock: Clock, cfg: Settings, req: Request, multipleUsable: bool, backends: set<Peer>)
    returns (c: Call, ghost log: seq<Section>)
    requires pk.Valid() && pk.Base().Consistent() && pk.Base().tried == {} && !pk.Base().backupPhase
    requires out.Record() == NoDealings
    requires multipleUsable <==> |pk.Usable()| > 1
    modifies pk.Objects(), pk.Base().Pool(), clock, out
    ensures var mode := PrepareBody(req.getBody, req.body.Some?, req.seeker, MayNeedReplay(cfg, req.nonIdempotent, multipleUsable));
            && Finished(cfg, req, mode, backends, c)
            && OnRecord(Job(cfg, req, mode, backends), c, out.Record(), LastLook(c.exit))
            && (mode.Streaming? ==> SentOnce(c.attempts))
    ensures Tidy(out.bodies, out.Cancels(), c.resp)
    ensures Rendered(pk, old(pk.Base().Past()), c)
    ensures c.exit == Some(Exhaustion) ==>
              RanDry(pk, c.attempts, log, Span(old(clock.now), clock.now, old(pk.Base().Past()), pk.Base().Past()))
    ensures !MayNeedReplay(cfg, req.nonIdempotent, multipleUsable) ==> SentOnce(c.attempts)
  {
    hide Tidy;
    hide Finished;
    hide Rendered;
    hide RanDry;
    hide OnRecord;
    hide RRPicker.Consistent;
    hide RRPicker.Past;
    hide Picker.Valid;
    ghost var start := pk.Base().Past();
    var mode := PrepareBody(req.getBody, req.body.Some?, req.seeker, MayNeedReplay(cfg, req.nonIdempotent, multipleUsable));
    var t := Job(cfg, req, mode, backends);
    c, log := Loop(pk, out, clock, t);
    StreamsAreReadOnce(pk, t, out, start, c);
  }
}
