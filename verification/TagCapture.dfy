/**
 Collecting choice distributions from a provider: a cache, a bounded retry loop, a hard request budget,
 and a report that the offline replay can consume.
 */
module TagCapture {
  import opened Identifiers
  import opened Sorting
  import opened TagBeam

  /** A rate limit's retry-after: seconds, or nothing usable. */
  datatype RetryAfter = Stated(seconds: real) | Unusable

  datatype Reply = Reply(model: Option<string>, probabilities: Option<map<string, Number>>)

  datatype Response = RateLimited(after: RetryAfter) | Transient | Broken | Replied(reply: Reply)

  datatype Limits = Limits(maxRequests: nat, maxAttempts: nat, maxWait: real, baseBackoff: real)

  datatype FailureKind = RateLimit | TransientFault | OtherError | ModelMismatch | InvalidDistribution

  datatype Failure = Failure(key: Key, kind: FailureKind, attempts: nat)

  // ------------------------------------------------------------ what may be stored

  predicate KnownModel(model: Option<string>) { model.Some? && ModelOk(model.value) }

  /** A complete distribution of genuine numbers. */
  predicate ValidDistribution(probabilities: map<string, Number>, options: seq<string>) {
    && Covers(options, probabilities)
    && (forall o | o in probabilities :: probabilities[o].Finite? && Probability(probabilities[o]))
    && CloseToOne(SumOver(options, probabilities))
  }

  /** What capture stores is what replay accepts, booleans posing as numbers aside. */
  lemma StoredIsAccepted(model: string, probabilities: map<string, Number>, options: seq<string>)
    ensures ModelOk(model) && ValidDistribution(probabilities, options) <==>
            Checked(options, Capture(model, probabilities)).Ok? && forall o | o in probabilities ::
                                                                     !probabilities[o].Flag?
  {
    if Covers(options, probabilities) && forall o | o in probabilities ::
                                           Probability(probabilities[o]) && !probabilities[o].Flag? {
      forall o | o in probabilities ensures probabilities[o].Finite? {}
    }
  }

  // ------------------------------------------------------------ asking, with retries

  function Pow2(n: nat): real { if n == 0 then 1.0 else 2.0 * Pow2(n - 1) }

  function Backoff(l: Limits, attempts: nat): real
    requires attempts > 0
  {
    var wait := l.baseBackoff * Pow2(attempts - 1);
    if wait < l.maxWait then wait else l.maxWait
  }

  /** The provider's own signal when it gave one, the exponential backoff otherwise. */
  function WaitFor(l: Limits, after: RetryAfter, attempts: nat): real
    requires attempts > 0
  {
    if after.Stated? && after.seconds >= 0.0 then after.seconds else Backoff(l, attempts)
  }

  datatype Ask = Got(reply: Reply) | GaveUp(kind: FailureKind) | OutOfBudget

  datatype Asking = Asking(ask: Ask, requests: nat, attempts: nat, slept: seq<real>)

  /** One question, from the given spend on; `respond(n)` is the provider's answer to request `n`. */
  function AskFrom(l: Limits, respond: nat -> Response, requests: nat, attempts: nat): Asking
    requires attempts < l.maxAttempts
    decreases l.maxAttempts - attempts
  {
    if requests >= l.maxRequests then Asking(OutOfBudget, requests, attempts, [])
    else
      match respond(requests)
      case Replied(reply) => Asking(Got(reply), requests + 1, attempts + 1, [])
      case Broken => Asking(GaveUp(OtherError), requests + 1, attempts + 1, [])
      case RateLimited(after) =>
        var wait := WaitFor(l, after, attempts + 1);
        if wait > l.maxWait || attempts + 1 >= l.maxAttempts
            then Asking(GaveUp(RateLimit), requests + 1, attempts + 1, [])
        else
          var rest := AskFrom(l, respond, requests + 1, attempts + 1);
          rest.(slept := [wait] + rest.slept)
      case Transient =>
        if attempts + 1 >= l.maxAttempts then Asking(GaveUp(TransientFault), requests + 1, attempts + 1, [])
        else
          var rest := AskFrom(l, respond, requests + 1, attempts + 1);
          rest.(slept := [Backoff(l, attempts + 1)] + rest.slept)
  }

  /**
   Whatever the provider answers: the budget is never passed, one question takes at most the allowed
   attempts and spends one request on each, it sleeps between attempts only and never beyond the
   bound, and it reports an exhausted budget exactly when it stops with the budget spent and no verdict.
   */
  lemma {:induction false} AskIsBounded(l: Limits, respond: nat -> Response, requests: nat, attempts: nat)
    requires attempts < l.maxAttempts && requests <= l.maxRequests
    ensures var a := AskFrom(l, respond, requests, attempts);
            && requests <= a.requests <= l.maxRequests
            && attempts <= a.attempts <= l.maxAttempts
            && a.requests - requests == a.attempts - attempts
            && (a.ask.OutOfBudget? ==> a.requests == l.maxRequests && |a.slept| == a.attempts - attempts)
            && (!a.ask.OutOfBudget? ==> |a.slept| == a.attempts - attempts - 1)
            && (forall i | 0 <= i < |a.slept| :: a.slept[i] <= l.maxWait)
            && (a.ask.Got? ==> a.requests > requests && respond(a.requests - 1) == Replied(a.ask.reply))
    decreases l.maxAttempts - attempts
  {
    if requests < l.maxRequests {
      match respond(requests)
      case Replied(_) =>
      case Broken =>
      case RateLimited(after) =>
        if WaitFor(l, after, attempts + 1) <= l.maxWait && attempts + 1 < l.maxAttempts {
          AskIsBounded(l, respond, requests + 1, attempts + 1);
        }
      case Transient =>
        if attempts + 1 < l.maxAttempts {
          AskIsBounded(l, respond, requests + 1, attempts + 1);
        }
    }
  }

  /** The backoff doubles with each attempt, from the base up to the bound. */
  lemma BackoffDoubles(l: Limits, attempts: nat)
    requires attempts > 0
    ensures Pow2(0) == 1.0 && Pow2(attempts) == Pow2(attempts - 1) + Pow2(attempts - 1)
    ensures Backoff(l, attempts) <= l.maxWait
  {}

  /** The wait after attempt `n`: the provider's own if it gave a usable one, else the bounded backoff. */
  ghost function WaitAfter(l: Limits, response: Response, n: nat): real
    requires n > 0
  {
    var backoff := l.baseBackoff * Pow2(n - 1);
    if response.RateLimited? && response.after.Stated? && response.after.seconds >= 0.0 then response.after.seconds
    else if backoff > l.maxWait then l.maxWait
    else backoff
  }

  /** The answer to attempt `n` is retried: a rate limit or a fault, with attempts left and the wait in bounds. */
  ghost predicate Retried(l: Limits, response: Response, n: nat)
    requires n > 0
  {
    (response.RateLimited? || response.Transient?) && n < l.maxAttempts && WaitAfter(l, response, n) <= l.maxWait
  }

  /** How a question ends on an answer that is not retried. */
  ghost predicate EndsOn(response: Response, ask: Ask) {
    match response
    case Replied(reply) => ask == Got(reply)
    case Broken => ask == GaveUp(OtherError)
    case RateLimited(_) => ask == GaveUp(RateLimit)
    case Transient => ask == GaveUp(TransientFault)
  }

  /**
   The course of one question. Every answer but the last is one to retry, with a sleep of its wait
   after it. The question ends with the budget, if that is spent before it is answered, and otherwise
   on the first answer that cannot be retried.
   */
  ghost predicate Course(l: Limits, respond: nat -> Response, requests: nat, attempts: nat, a: Asking) {
    var n := |a.slept|;
    && (forall i: nat | i < n :: Pauses(l, respond, requests, attempts, a.slept, i))
    && (a.ask.OutOfBudget? <==> requests + n >= l.maxRequests)
    && (if a.ask.OutOfBudget? then a.requests == requests + n && a.attempts == attempts + n
        else && a.requests == requests + n + 1 && a.attempts == attempts + n + 1
             && !Retried(l, respond(requests + n), attempts + n + 1) && EndsOn(respond(requests + n), a.ask))
  }

  /** The `i`th request is within the budget and its answer is retried. */
  ghost predicate GoesOn(l: Limits, respond: nat -> Response, requests: nat, attempts: nat, i: nat) {
    requests + i < l.maxRequests && Retried(l, respond(requests + i), attempts + i + 1)
  }

  /** So it is, after the sleep listed for it. */
  ghost predicate Pauses(l: Limits, respond: nat -> Response, requests: nat, attempts: nat, slept: seq<real>, i: nat)
    requires i < |slept|
  {
    && GoesOn(l, respond, requests, attempts, i)
    && slept[i] == WaitAfter(l, respond(requests + i), attempts + i + 1)
  }

  lemma {:induction false} AskTakesItsCourse(l: Limits, respond: nat -> Response, requests: nat, attempts: nat)
    requires attempts < l.maxAttempts
    ensures Course(l, respond, requests, attempts, AskFrom(l, respond, requests, attempts))
    decreases l.maxAttempts - attempts
  {
    if requests < l.maxRequests && Retried(l, respond(requests), attempts + 1) {
      AskTakesItsCourse(l, respond, requests + 1, attempts + 1);
      CourseGoesOn(l, respond, requests, attempts, AskFrom(l, respond, requests + 1, attempts + 1));
    }
  }

  lemma CourseGoesOn(l: Limits, respond: nat -> Response, requests: nat, attempts: nat, rest: Asking)
    requires Course(l, respond, requests + 1, attempts + 1, rest)
    requires requests < l.maxRequests && Retried(l, respond(requests), attempts + 1)
    ensures var wait := WaitAfter(l, respond(requests), attempts + 1);
            Course(l, respond, requests, attempts, rest.(slept := [wait] + rest.slept))
  {
    var slept := [WaitAfter(l, respond(requests), attempts + 1)] + rest.slept;
    forall i: nat | i < |slept| ensures Pauses(l, respond, requests, attempts, slept, i) {
      if i > 0 { assert Pauses(l, respond, requests + 1, attempts + 1, rest.slept, i - 1); }
    }
  }

  lemma CourseIsNoLonger(l: Limits, respond: nat -> Response, requests: nat, attempts: nat, a: Asking, b: Asking)
    requires Course(l, respond, requests, attempts, a) && Course(l, respond, requests, attempts, b)
    ensures |b.slept| <= |a.slept|
  {
    assert !GoesOn(l, respond, requests, attempts, |a.slept|);
    forall i: nat | i < |b.slept| ensures GoesOn(l, respond, requests, attempts, i) {
      assert Pauses(l, respond, requests, attempts, b.slept, i);
    }
  }

  /** The course leaves nothing open. */
  lemma CourseIsUnique(l: Limits, respond: nat -> Response, requests: nat, attempts: nat, a: Asking, b: Asking)
    requires Course(l, respond, requests, attempts, a) && Course(l, respond, requests, attempts, b)
    ensures a == b
  {
    CourseIsNoLonger(l, respond, requests, attempts, a, b);
    CourseIsNoLonger(l, respond, requests, attempts, b, a);
    forall i: nat | i < |a.slept| ensures a.slept[i] == b.slept[i] {
      assert Pauses(l, respond, requests, attempts, a.slept, i) && Pauses(l, respond, requests, attempts, b.slept, i);
    }
    assert a.slept == b.slept;
  }

  /** What a failure says of the answer that caused it. */
  ghost predicate Blames(response: Response, options: seq<string>, kind: FailureKind) {
    match response
    case RateLimited(_) => kind == RateLimit
    case Transient => kind == TransientFault
    case Broken => kind == OtherError
    case Replied(reply) =>
      if !KnownModel(reply.model) then kind == ModelMismatch
      else kind == InvalidDistribution
           && (reply.probabilities.None? || !ValidDistribution(reply.probabilities.value, options))
  }

  // ------------------------------------------------------------ the tags of one run

  /** The members whose flag is `b`, in order. */
  function Picked(tags: seq<string>, flags: seq<bool>, b: bool): seq<string>
    requires |flags| == |tags|
  {
    if tags == [] then []
    else
      var n := |tags| - 1;
      Picked(tags[..n], flags[..n], b) + (if flags[n] == b then [tags[n]] else [])
  }

  lemma {:induction false} PickedMeans(tags: seq<string>, flags: seq<bool>)
    requires |flags| == |tags|
    ensures multiset(Picked(tags, flags, true)) + multiset(Picked(tags, flags, false)) == multiset(tags)
  {
    if tags != [] {
      var n := |tags| - 1;
      PickedMeans(tags[..n], flags[..n]);
      assert tags == tags[..n] + [tags[n]];
      var front := tags[..n];
      OneMorePicked(front, tags[n], Picked(front, flags[..n], true), Picked(front, flags[..n], false), flags[n]);
    }
  }

  lemma OneMorePicked(front: seq<string>, tag: string, some: seq<string>, others: seq<string>, b: bool)
    requires multiset(some) + multiset(others) == multiset(front)
    ensures multiset(some + (if b then [tag] else [])) + multiset(others + (if b then [] else [tag]))
         == multiset(front + [tag])
  {}

  /** The first tags have been shared out by their flags. */
  ghost predicate Shared(pending: seq<string>, flags: seq<bool>, completed: seq<string>, failed: seq<string>) {
    && |flags| <= |pending|
    && completed == Picked(pending[..|flags|], flags, true)
    && failed == Picked(pending[..|flags|], flags, false)
  }

  lemma SharedStep(pending: seq<string>, flags: seq<bool>, completed: seq<string>, failed: seq<string>, b: bool)
    requires Shared(pending, flags, completed, failed) && |flags| < |pending|
    ensures var tag := [pending[|flags|]];
            if b then Shared(pending, flags + [b], completed + tag, failed)
                else Shared(pending, flags + [b], completed, failed + tag)
  {
    var n := |flags|;
    assert pending[..n + 1][..n] == pending[..n] && (flags + [b])[..n] == flags;
    assert Picked(pending[..n + 1], flags + [b], true)
        == Picked(pending[..n], flags, true) + (if b then [pending[n]] else []);
    assert Picked(pending[..n + 1], flags + [b], false)
        == Picked(pending[..n], flags, false) + (if b then [] else [pending[n]]);
  }

  lemma SharedAmounts(pending: seq<string>, flags: seq<bool>, completed: seq<string>, failed: seq<string>)
    requires Shared(pending, flags, completed, failed)
    ensures multiset(completed) + multiset(failed) == multiset(pending[..|flags|])
  {
    PickedMeans(pending[..|flags|], flags);
  }

  lemma SplitAmounts(all: seq<string>, k: nat)
    requires k <= |all|
    ensures multiset(all) == multiset(all[..k]) + multiset(all[k..])
  {
    assert all == all[..k] + all[k..];
  }

  /** Completed, failed and skipped tags share out the distinct tags, each once, the skipped ones last. */
  lemma ReportSharesOut(tags: seq<string>, flags: seq<bool>, completed: seq<string>, failed: seq<string>)
    requires Shared(Distinct(tags), flags, completed, failed)
    ensures multiset(completed) + multiset(failed) + multiset(Distinct(tags)[|flags|..]) == multiset(Distinct(tags))
    ensures NoRepeats(Distinct(tags)) && forall t :: t in Distinct(tags) <==> t in tags
  {
    SharedAmounts(Distinct(tags), flags, completed, failed);
    SplitAmounts(Distinct(tags), |flags|);
    DistinctMeans(tags);
  }

  datatype Resolved = Found(capture: Capture) | Failed | Exhausted | Refused

  datatype TagOutcome = Completed(results: seq<Scored>) | TagFailed | TagExhausted | Aborted

  datatype Round = Went(next: seq<Candidate>) | Stopped(outcome: TagOutcome)

  datatype Report = Report(completed: seq<string>, failed: seq<string>, skipped: seq<string>, aborted: bool)

  /** Entries added to a cache are complete, valid answers of the required model. */
  ghost predicate OnlyValidAdded(before: map<Key, Capture>, after: map<Key, Capture>) {
    && Includes(after, before)
    && forall k | k in after && k !in before ::
         ModelOk(after[k].model) && ValidDistribution(after[k].probabilities, k.options)
  }

  /** And they are answers about one tag. */
  ghost predicate OnlyAddedFor(tag: string, before: map<Key, Capture>, after: map<Key, Capture>) {
    OnlyValidAdded(before, after) && forall k | k in after && k !in before :: k.tag == tag
  }

  class Capturer {
    const limits: Limits
    const respond: nat -> Response
    const tree: Taxonomy
    const sha: string
    const log: real -> real
    const exp: real -> real
    var cache: map<Key, Capture>
    var requests: nat
    var failures: seq<Failure>
    var slept: seq<real>

    ghost predicate Valid()
      reads this
    {
      && 0 < limits.maxRequests && 0 < limits.maxAttempts && requests <= limits.maxRequests
      && (forall i | 0 <= i < |slept| :: slept[i] <= limits.maxWait)
      && (forall i | 0 <= i < |failures| :: failures[i].attempts <= limits.maxAttempts)
    }

    function ReplayOf(tag: string): Replay
      reads this
    {
      Replay(tag, tree, cache, sha, log, exp)
    }

    constructor (limits: Limits, respond: nat -> Response, tree: Taxonomy, sha: string,
                 log: real -> real, exp: real -> real, cache: map<Key, Capture>)
      requires limits.maxRequests >= 1 && limits.maxAttempts >= 1
      ensures Valid() && this.cache == cache && requests == 0
      ensures this.limits == limits && this.respond == respond && this.tree == tree && this.sha == sha
    {
      this.limits, this.respond, this.tree, this.sha, this.log, this.exp := limits, respond, tree, sha, log, exp;
      this.cache, requests, failures, slept := cache, 0, [], [];
    }

    /** The retry loop: each try spends budget before it asks. */
    method AskProvider() returns (ask: Ask, attempts: nat)
      requires Valid()
      modifies this`requests, this`slept
      ensures Valid()
      ensures var a := AskFrom(limits, respond, old(requests), 0);
              ask == a.ask && attempts == a.attempts && requests == a.requests && slept == old(slept) + a.slept
      ensures |old(slept)| <= |slept| && slept[..|old(slept)|] == old(slept)
              && Course(limits, respond, old(requests), 0, Asking(ask, requests, attempts, slept[|old(slept)|..]))
    {
      AskTakesItsCourse(limits, respond, requests, 0);
      ghost var all := AskFrom(limits, respond, requests, 0);
      AskIsBounded(limits, respond, requests, 0);
      attempts := 0;
      while true
        invariant attempts < limits.maxAttempts && requests <= limits.maxRequests
        invariant var a := AskFrom(limits, respond, requests, attempts);
                  all == a.(slept := all.slept) && slept + a.slept == old(slept) + all.slept
        decreases limits.maxAttempts - attempts
      {
        if requests >= limits.maxRequests {
          assert slept + [] == slept;
          return OutOfBudget, attempts;
        }
        var response := respond(requests);
        requests := requests + 1;
        attempts := attempts + 1;
        assert slept + [] == slept;
        match response {
          case Replied(reply) =>
            return Got(reply), attempts;
          case Broken =>
            return GaveUp(OtherError), attempts;
          case RateLimited(after) =>
            var wait := WaitFor(limits, after, attempts);
            if wait > limits.maxWait || attempts >= limits.maxAttempts {
              return GaveUp(RateLimit), attempts;
            }
            assert forall rest: seq<real> :: slept + ([wait] + rest) == (slept + [wait]) + rest;
            slept := slept + [wait];
          case Transient =>
            if attempts >= limits.maxAttempts {
              return GaveUp(TransientFault), attempts;
            }
            assert forall rest: seq<real> ::
                     slept + ([Backoff(limits, attempts)] + rest) == (slept + [Backoff(limits, attempts)]) + rest;
            slept := slept + [Backoff(limits, attempts)];
        }
      }
    }

    /** The cached answer, or a fresh one when it is complete and from the required model. */
    method Resolve(key: Key) returns (r: Resolved)
      requires Valid()
      modifies this
      ensures Valid() && old(requests) <= requests <= old(requests) + limits.maxAttempts
      ensures OnlyAddedFor(key.tag, old(cache), cache)
      ensures key in old(cache) ==> r == Found(cache[key]) && cache == old(cache) && requests == old(requests)
      ensures r.Found? ==> key in cache && r.capture == cache[key]
      ensures !r.Found? ==> cache == old(cache) && key !in cache
      ensures r.Exhausted? ==> requests == limits.maxRequests
      ensures r.Found? && key !in old(cache) ==>
                requests > 0 && respond(requests - 1) ==
                  Replied(Reply(Some(r.capture.model), Some(r.capture.probabilities)))
      ensures r.Found? || r.Exhausted? ==> failures == old(failures)
      ensures r.Failed? || r.Refused? ==>
                && |failures| == |old(failures)| + 1 && failures[..|old(failures)|] == old(failures)
                && requests > old(requests)
                && var failure := failures[|old(failures)|];
                   && failure.key == key && failure.attempts == requests - old(requests)
                   && Blames(respond(requests - 1), key.options, failure.kind)
                   && (r.Refused? <==> failure.kind == ModelMismatch)
    {
      if key in cache {
        return Found(cache[key]);
      }
      AskIsBounded(limits, respond, requests, 0);
      var ask, attempts := AskProvider();
      match ask {
        case OutOfBudget =>
          return Exhausted;
        case GaveUp(kind) =>
          failures := failures + [Failure(key, kind, attempts)];
          return Failed;
        case Got(reply) =>
          if !KnownModel(reply.model) {
            failures := failures + [Failure(key, ModelMismatch, attempts)];
            return Refused;
          }
          if reply.probabilities.None? || !ValidDistribution(reply.probabilities.value, key.options) {
            failures := failures + [Failure(key, InvalidDistribution, attempts)];
            return Failed;
          }
          cache := cache[key := Capture(reply.model.value, reply.probabilities.value)];
          return Found(cache[key]);
      }
    }

    /** One candidate's continuations, asking for its distribution where there is a choice to make. */
    method ExpandCandidate(tag: string, c: Candidate) returns (r: Round)
      requires Valid()
      modifies this
      ensures Valid() && old(requests) <= requests && OnlyAddedFor(tag, old(cache), cache)
      ensures r.Went? <==> ExpandOne(ReplayOf(tag), c).Ok?
      ensures r.Went? ==> ExpandOne(ReplayOf(tag), c) == Ok(r.next)
      ensures old(ExpandOne(ReplayOf(tag), c)).Ok? ==> cache == old(cache) && requests == old(requests)
      ensures r.Stopped? ==> !r.outcome.Completed? && (r.outcome.TagExhausted? ==> requests == limits.maxRequests)
    {
      var options := Children(tree, c.path);
      if |options| == 0 {
        return Went([c]);
      }
      if |options| == 1 {
        return Went([c.(path := c.path + [options[0]])]);
      }
      var resolved := Resolve(Key(tag, c.path, options, sha));
      match resolved {
        case Failed => return Stopped(TagFailed);
        case Exhausted => return Stopped(TagExhausted);
        case Refused => return Stopped(Aborted);
        case Found(capture) =>
          var checked := Checked(options, capture);
          if checked.Err? {
            return Stopped(Aborted);
          }
          var next := RunContinuations(log, c, options, checked.value);
          return Went(next);
      }
    }

    method ExpandRound(tag: string, cs: seq<Candidate>) returns (r: Round)
      requires Valid()
      modifies this
      ensures Valid() && old(requests) <= requests && OnlyAddedFor(tag, old(cache), cache)
      ensures r.Went? <==> Expand(ReplayOf(tag), cs).Ok?
      ensures r.Went? ==> Expand(ReplayOf(tag), cs) == Ok(r.next)
      ensures old(Expand(ReplayOf(tag), cs)).Ok? ==> cache == old(cache) && requests == old(requests)
      ensures r.Stopped? ==> !r.outcome.Completed? && (r.outcome.TagExhausted? ==> requests == limits.maxRequests)
    {
      var expanded: seq<Candidate> := [];
      ghost var before := ReplayOf(tag);
      for i := 0 to |cs|
        invariant Valid() && old(requests) <= requests && OnlyAddedFor(tag, old(cache), cache)
        invariant Expand(ReplayOf(tag), cs[..i]) == Ok(expanded)
        invariant Expand(before, cs).Ok? ==> cache == old(cache) && requests == old(requests)
      {
        assert cs[..i + 1][..i] == cs[..i];
        if Expand(before, cs).Ok? { ExpandHas(before, cs, cs[i]); }
        ghost var sofar := ReplayOf(tag);
        var step := ExpandCandidate(tag, cs[i]);
        ExpandStable(sofar, cache, cs[..i]);
        if step.Stopped? {
          ExpandFails(ReplayOf(tag), cs, i);
          return step;
        }
        expanded := expanded + step.next;
      }
      assert cs[..|cs|] == cs;
      r := Went(expanded);
    }

    /** The three-wide search over a growing cache. */
    method CaptureTag(tag: string) returns (outcome: TagOutcome)
      requires Valid()
      modifies this
      ensures Valid() && old(requests) <= requests && OnlyAddedFor(tag, old(cache), cache)
      ensures outcome.Completed? <==> Traverse(ReplayOf(tag), 3).Ok?
      ensures outcome.Completed? ==> Traverse(ReplayOf(tag), 3) == Ok(outcome.results)
      ensures old(Traverse(ReplayOf(tag), 3)).Ok? ==> cache == old(cache) && requests == old(requests)
      ensures outcome.TagExhausted? ==> requests == limits.maxRequests
    {
      var first := ExpandRound(tag, [ROOT]);
      if first.Stopped? {
        return first.outcome;
      }
      var candidates := Best(first.next, 3);
      ghost var midway := ReplayOf(tag);
      var second := ExpandRound(tag, candidates);
      ExpandStable(midway, cache, [ROOT]);
      if second.Stopped? {
        return second.outcome;
      }
      outcome := Completed(Scores(exp, Best(second.next, 3)));
    }

    method DistinctTags(tags: seq<string>) returns (pending: seq<string>)
      ensures pending == Distinct(tags)
    {
      pending := [];
      for i := 0 to |tags|
        invariant pending == Distinct(tags[..i])
      {
        assert tags[..i + 1][..i] == tags[..i];
        if tags[i] !in pending {
          pending := pending + [tags[i]];
        }
      }
      assert tags[..|tags|] == tags;
    }

    /** The tag's search succeeds offline, from the given captures. */
    ghost predicate Replays(tag: string, captures: map<Key, Capture>) {
      Traverse(Replay(tag, tree, captures, sha, log, exp), 3).Ok?
    }

    ghost predicate AllReplay(tags: seq<string>, captures: map<Key, Capture>) {
      forall tag | tag in tags :: Replays(tag, captures)
    }

    ghost predicate NoneReplay(tags: seq<string>, captures: map<Key, Capture>) {
      forall tag | tag in tags :: !Replays(tag, captures)
    }

    /** Answers about one tag make no other replayable or not. */
    lemma OthersUnmoved(tags: seq<string>, tag: string, was: map<Key, Capture>, now: map<Key, Capture>)
      requires OnlyAddedFor(tag, was, now) && tag !in tags
      ensures AllReplay(tags, was) ==> AllReplay(tags, now)
      ensures NoneReplay(tags, was) ==> NoneReplay(tags, now)
    {
      forall t | t in tags ensures Replays(t, was) <==> Replays(t, now) {
        TraverseReadsOwnKeys(Replay(t, tree, was, sha, log, exp), now, 3);
      }
    }

    /** One tag of a run: it completes exactly when it now replays, and the others stay as they were. */
    method CaptureNext(tag: string, ghost completed: seq<string>, ghost failed: seq<string>)
      returns (outcome: TagOutcome)
      requires Valid() && AllReplay(completed, cache) && NoneReplay(failed, cache) && tag !in completed
               && tag !in failed
      modifies this
      ensures Valid() && OnlyValidAdded(old(cache), cache)
      ensures AllReplay(completed, cache) && NoneReplay(failed, cache)
      ensures outcome.Completed? <==> Replays(tag, cache)
      ensures Replays(tag, old(cache)) ==> outcome.Completed? && cache == old(cache) && requests == old(requests)
      ensures outcome.TagExhausted? ==> requests == limits.maxRequests
    {
      ghost var was := cache;
      assert Replays(tag, cache) <==> Traverse(ReplayOf(tag), 3).Ok?;
      outcome := CaptureTag(tag);
      assert Replays(tag, cache) <==> Traverse(ReplayOf(tag), 3).Ok?;
      OthersUnmoved(completed, tag, was, cache);
      OthersUnmoved(failed, tag, was, cache);
    }

    lemma NotYetSeen(pending: seq<string>, flags: seq<bool>, completed: seq<string>, failed: seq<string>)
      requires NoRepeats(pending) && Shared(pending, flags, completed, failed) && |flags| < |pending|
      ensures pending[|flags|] !in completed && pending[|flags|] !in failed
    {
      var done, tag := pending[..|flags|], pending[|flags|];
      SharedAmounts(pending, flags, completed, failed);
      assert tag !in done;
      assert tag !in multiset(done);
    }

    /** The tags in order, until the budget is spent or the run must stop. */
    method RunPending(pending: seq<string>) returns (report: Report, ghost flags: seq<bool>)
      requires Valid() && NoRepeats(pending)
      modifies this
      ensures Valid() && OnlyValidAdded(old(cache), cache)
      ensures Shared(pending, flags, report.completed, report.failed)
      ensures !report.aborted ==>
              report.skipped == pending[|flags|..] && (report.skipped != [] ==> requests == limits.maxRequests)
      ensures AllReplay(report.completed, cache) && NoneReplay(report.failed, cache)
      ensures AllReplay(pending, old(cache)) ==>
                requests == old(requests) && cache == old(cache) && !report.aborted && report.completed == pending
    {
      var completed: seq<string>, failed: seq<string> := [], [];
      flags := [];
      for i := 0 to |pending|
        invariant Valid() && OnlyValidAdded(old(cache), cache)
        invariant |flags| == i && Shared(pending, flags, completed, failed)
        invariant AllReplay(completed, cache) && NoneReplay(failed, cache)
        invariant AllReplay(pending, old(cache)) ==>
                  requests == old(requests) && cache == old(cache) && completed == pending[..i]
      {
        var tag := pending[i];
        assert tag in pending;
        NotYetSeen(pending, flags, completed, failed);
        var outcome := CaptureNext(tag, completed, failed);
        SharedStep(pending, flags, completed, failed, outcome.Completed?);
        assert pending[..i + 1] == pending[..i] + [tag];
        match outcome {
          case Completed(_) =>
            completed, flags := completed + [tag], flags + [true];
          case TagFailed =>
            failed, flags := failed + [tag], flags + [false];
          case TagExhausted =>
            report := Report(completed, failed, pending[i..], false);
            return;
          case Aborted =>
            report := Report(completed, failed, [], true);
            return;
        }
      }
      assert pending[..|pending|] == pending;
      report := Report(completed, failed, [], false);
    }

    /**
     Each distinct tag once, in order, until the budget is spent. A processed tag is completed exactly
     when it replays from the final cache; tags that already do cost no request and change nothing.
     */
    method Run(tags: seq<string>) returns (report: Report, ghost flags: seq<bool>)
      requires Valid()
      modifies this
      ensures Valid() && OnlyValidAdded(old(cache), cache)
      ensures Shared(Distinct(tags), flags, report.completed, report.failed)
      ensures !report.aborted ==>
              report.skipped == Distinct(tags)[|flags|..] && (report.skipped != [] ==> requests == limits.maxRequests)
      ensures AllReplay(report.completed, cache) && NoneReplay(report.failed, cache)
      ensures AllReplay(tags, old(cache)) ==>
                requests == old(requests) && cache == old(cache) && !report.aborted
                    && report.completed == Distinct(tags)
    {
      var pending := DistinctTags(tags);
      DistinctMeans(tags);
      report, flags := RunPending(pending);
    }
  }
}
