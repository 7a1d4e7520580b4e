/** The generator component's `generateImage`: guard on the signed-in user
    and the prompt, call the generation endpoint in a counter-driven retry
    loop, then save the image for the user.

    The endpoint's answers are an input, one per possible call. The two
    second pause between attempts is recorded as a `Wait` event in the
    trace of the run, next to one `Call` event per request sent. */
module ImageGenerator {
  import opened Outcomes
  import opened JsString
  import opened GenerateRoute
  import opened DesignService

  const MaxRetries: nat := 3

  const SignInFirst := "请先登录"
  const EnterPrompt := "请输入描述文字"
  const GenerationFailed := "生成图片失败"
  const InvalidImageUrl := "生成的图片URL无效"
  const SavedPartially := "图片已生成，但保存失败，请稍后重试"
  const TimeoutHint := "生成超时，请重试或简化您的描述"
  const GenericFailure := "生成失败，请重试"
  const LoginRoute := "/login"

  /** The body of an endpoint response as `response.json()` sees it. */
  datatype ReplyBody = Unparsable(message: string) | Parsed(data: Body)

  /** One request to the endpoint: `fetch` threw, or a response arrived. */
  datatype Attempt = NetworkError(message: string) | Answered(status: int, body: ReplyBody)

  /** A request to the endpoint, or the 2000 ms pause before a retry. */
  datatype Event = Call | Wait

  /** What one attempt amounts to for the loop. */
  datatype Verdict = GatewayTimeout | Failure(message: string) | Image(url: string)

  /** `response.ok` */
  predicate IsOk(status: int)
  {
    200 <= status <= 299
  }

  /** `Array.isArray(p) ? p[0] : p`, with "" for a missing value. */
  function ChosenUrl(p: Output): string
  {
    match p
    case NoOutput => ""
    case Single(url) => url
    case Many(urls) => if urls == [] then "" else urls[0]
  }

  /** The body of the loop's inner `try`, up to what it makes of the
      attempt: the body is parsed before the status is looked at, a 504
      is set apart, any other failure becomes an error message, and a
      falsy URL is a failure too. */
  function Judge(a: Attempt): (v: Verdict)
    ensures v == GatewayTimeout <==> a.Answered? && a.body.Parsed? && a.status == 504
    ensures v.Image? <==> a.Answered? && a.body.Parsed? && IsOk(a.status) && ChosenUrl(a.body.data.prediction) != ""
    ensures v.Image? ==> v.url == ChosenUrl(a.body.data.prediction)
    ensures a.NetworkError? ==> v == Failure(a.message)
    ensures a.Answered? && a.body.Unparsable? ==> v == Failure(a.body.message)
    ensures a.Answered? && a.body.Parsed? && !IsOk(a.status) && a.status != 504 ==>
              v == Failure(if a.body.data.error != "" then a.body.data.error else GenerationFailed)
    ensures a.Answered? && a.body.Parsed? && IsOk(a.status) && ChosenUrl(a.body.data.prediction) == "" ==>
              v == Failure(InvalidImageUrl)
  {
    match a
    case NetworkError(m) => Failure(m)
    case Answered(status, body) =>
      match body
      case Unparsable(m) => Failure(m)
      case Parsed(data) =>
        if !IsOk(status) then
          if status == 504 then GatewayTimeout
          else Failure(if data.error != "" then data.error else GenerationFailed)
        else
          var url := ChosenUrl(data.prediction);
          if url == "" then Failure(InvalidImageUrl) else Image(url)
  }

  /** The loop as a state machine: still attempting with a retry count, or
      left with an image, or left by a rethrown error. `Attempting(3)` is
      the silent end after the last attempt timed out at the gateway. */
  datatype LoopState = Attempting(retryCount: nat) | Succeeded(url: string) | Rethrown(message: string)

  /** The state after one turn from `Attempting(n)`. */
  function Next(n: nat, a: Attempt): LoopState
  {
    match Judge(a)
    case GatewayTimeout => Attempting(n + 1)
    case Failure(m) => if n == MaxRetries - 1 then Rethrown(m) else Attempting(n + 1)
    case Image(url) => Succeeded(url)
  }

  /** The events of one turn from `Attempting(n)`: the call, and the pause
      when the attempt failed other than by a gateway timeout and is retried. */
  function Events(n: nat, a: Attempt): seq<Event>
  {
    if Judge(a).Failure? && n < MaxRetries - 1 then [Call, Wait] else [Call]
  }

  /** Where the loop ends from a state; call `n` gets `attempts[n]`. */
  function FinalState(attempts: seq<Attempt>, s: LoopState): LoopState
    requires |attempts| >= MaxRetries
    decreases if s.Attempting? then MaxRetries + 1 - s.retryCount else 0
  {
    if s.Attempting? && s.retryCount < MaxRetries then
      FinalState(attempts, Next(s.retryCount, attempts[s.retryCount]))
    else s
  }

  /** The events the loop records from a state on. */
  function Trace(attempts: seq<Attempt>, s: LoopState): seq<Event>
    requires |attempts| >= MaxRetries
    decreases if s.Attempting? then MaxRetries + 1 - s.retryCount else 0
  {
    if s.Attempting? && s.retryCount < MaxRetries then
      var n := s.retryCount;
      Events(n, attempts[n]) + Trace(attempts, Next(n, attempts[n]))
    else []
  }

  /** One turn of the state machine from `Attempting(n)`. */
  lemma UnfoldTurn(attempts: seq<Attempt>, n: nat)
    requires |attempts| >= MaxRetries && n < MaxRetries
    ensures FinalState(attempts, Attempting(n)) == FinalState(attempts, Next(n, attempts[n]))
    ensures Trace(attempts, Attempting(n)) == Events(n, attempts[n]) + Trace(attempts, Next(n, attempts[n]))
  {
  }

  /** The loop has left the state machine: nothing more happens. */
  lemma Terminal(attempts: seq<Attempt>, s: LoopState)
    requires |attempts| >= MaxRetries && !(s.Attempting? && s.retryCount < MaxRetries)
    ensures FinalState(attempts, s) == s && Trace(attempts, s) == []
  {
  }

  lemma Regroup(goal: seq<Event>, before: seq<Event>, events: seq<Event>, rest: seq<Event>)
    requires goal == before + (events + rest)
    ensures goal == (before + events) + rest
    ensures rest == [] ==> goal == before + events
  {
  }

  lemma CallThenWait(t: seq<Event>)
    ensures t + [Call] + [Wait] == t + [Call, Wait]
  {
  }

  /** The `while` loop of `generateImage`. */
  method RetryLoop(attempts: seq<Attempt>) returns (end: LoopState, trace: seq<Event>)
    requires |attempts| >= MaxRetries
    ensures end == FinalState(attempts, Attempting(0))
    ensures trace == Trace(attempts, Attempting(0))
  {
    var retryCount: nat := 0;
    var success := false;
    var imageUrl := "";
    var thrown: Option<string> := None;
    trace := [];
    ghost var state := Attempting(0);
    ghost var goal := Trace(attempts, Attempting(0));
    assert goal == trace + goal;
    while retryCount < MaxRetries && !success
      invariant retryCount <= MaxRetries
      invariant state == if success then Succeeded(imageUrl) else Attempting(retryCount)
      invariant FinalState(attempts, Attempting(0)) == FinalState(attempts, state)
      invariant goal == trace + Trace(attempts, state)
      decreases MaxRetries - retryCount + (if success then 0 else 1)
    {
      ghost var before := trace;
      ghost var next := Next(retryCount, attempts[retryCount]);
      ghost var events := Events(retryCount, attempts[retryCount]);
      UnfoldTurn(attempts, retryCount);
      trace := trace + [Call];
      // the inner `try`: request, parse, status and URL checks
      match Judge(attempts[retryCount]) {
        case GatewayTimeout =>
          // retried at once, without a wait
          retryCount := retryCount + 1;
        case Image(url) =>
          imageUrl := url;
          success := true;
        case Failure(m) =>
          // the `catch`: rethrow on the last attempt, otherwise wait and retry
          if retryCount == MaxRetries - 1 {
            thrown := Some(m);
            Terminal(attempts, next);
            Regroup(goal, before, events, []);
            break;
          }
          retryCount := retryCount + 1;
          CallThenWait(before);
          trace := trace + [Wait];
      }
      Regroup(goal, before, events, Trace(attempts, next));
      state := next;
    }
    if thrown.None? {
      Terminal(attempts, state);
      Regroup(goal, trace, [], []);
    }
    end := if thrown.Some? then Rethrown(thrown.value)
           else if success then Succeeded(imageUrl)
           else Attempting(retryCount);
  }

  /** The message the outer `catch` shows for a thrown message. */
  function ShownMessage(m: string): string
  {
    if Includes(m, "timeout") || Includes(m, "超时") then TimeoutHint
    else if m != "" then m
    else GenericFailure
  }

  // ---------------------------------------------------------------------
  // Properties of the loop

  function Count(t: seq<Event>, e: Event): nat
  {
    if t == [] then 0 else (if t[0] == e then 1 else 0) + Count(t[1..], e)
  }

  lemma {:induction false} CountAppend(a: seq<Event>, b: seq<Event>, e: Event)
    ensures Count(a + b, e) == Count(a, e) + Count(b, e)
  {
    if a != [] {
      assert (a + b)[0] == a[0] && (a + b)[1..] == a[1..] + b;
      CountAppend(a[1..], b, e);
    } else {
      assert a + b == b;
    }
  }

  /** The attempt the loop stops at, counted from `n`: the first of the
      first two attempts that yields an image, otherwise the third. */
  function Decisive(attempts: seq<Attempt>, n: nat): (k: nat)
    requires |attempts| >= MaxRetries && n < MaxRetries
    ensures n <= k < MaxRetries
    decreases MaxRetries - n
  {
    if n == MaxRetries - 1 || Judge(attempts[n]).Image? then n else Decisive(attempts, n + 1)
  }

  /** How the decisive attempt ends the loop. */
  function Outcome(v: Verdict): LoopState
  {
    match v
    case Image(url) => Succeeded(url)
    case Failure(m) => Rethrown(m)
    case GatewayTimeout => Attempting(MaxRetries)
  }

  /** The attempts in `[start, stop)` that fail other than by a gateway timeout. */
  function OtherFailures(attempts: seq<Attempt>, start: nat, stop: nat): nat
    requires start <= stop <= |attempts|
    decreases stop - start
  {
    if start == stop then 0
    else (if Judge(attempts[start]).Failure? then 1 else 0) + OtherFailures(attempts, start + 1, stop)
  }

  /** The run from retry count `n` ends as its decisive attempt says, after
      one call per attempt up to it and one wait per other failure before it. */
  lemma {:induction false} RunSummary(attempts: seq<Attempt>, n: nat)
    requires |attempts| >= MaxRetries && n < MaxRetries
    ensures var k := Decisive(attempts, n);
            var t := Trace(attempts, Attempting(n));
            && FinalState(attempts, Attempting(n)) == Outcome(Judge(attempts[k]))
            && Count(t, Call) == k - n + 1
            && Count(t, Wait) == OtherFailures(attempts, n, k)
    decreases MaxRetries - n
  {
    var a := attempts[n];
    var rest := Trace(attempts, Next(n, a));
    assert Trace(attempts, Attempting(n)) == Events(n, a) + rest;
    CountAppend(Events(n, a), rest, Call);
    CountAppend(Events(n, a), rest, Wait);
    if n < MaxRetries - 1 && !Judge(a).Image? {
      RunSummary(attempts, n + 1);
    }
  }

  /** The endpoint is called at most three times per run, and the loop
      waits at most twice. */
  lemma AtMostThreeCalls(attempts: seq<Attempt>)
    requires |attempts| >= MaxRetries
    ensures Count(Trace(attempts, Attempting(0)), Call) <= MaxRetries
    ensures Count(Trace(attempts, Attempting(0)), Wait) <= MaxRetries - 1
  {
    RunSummary(attempts, 0);
    var k := Decisive(attempts, 0);
    OtherFailuresBound(attempts, 0, k);
  }

  lemma {:induction false} OtherFailuresBound(attempts: seq<Attempt>, start: nat, stop: nat)
    requires start <= stop <= |attempts|
    ensures OtherFailures(attempts, start, stop) <= stop - start
    decreases stop - start
  {
    if start < stop {
      OtherFailuresBound(attempts, start + 1, stop);
    }
  }

  /** Three gateway timeouts end the loop silently, without an image, an
      error or a single wait. */
  lemma ThreeGatewayTimeouts(attempts: seq<Attempt>)
    requires |attempts| >= MaxRetries
    requires forall i :: 0 <= i < MaxRetries ==> Judge(attempts[i]) == GatewayTimeout
    ensures FinalState(attempts, Attempting(0)) == Attempting(MaxRetries)
    ensures Trace(attempts, Attempting(0)) == [Call, Call, Call]
  {
    assert Judge(attempts[0]) == GatewayTimeout && Judge(attempts[1]) == GatewayTimeout;
    assert Judge(attempts[2]) == GatewayTimeout;
    UnfoldTurn(attempts, 0);
    UnfoldTurn(attempts, 1);
    UnfoldTurn(attempts, 2);
    Terminal(attempts, Attempting(MaxRetries));
    assert [Call] + ([Call] + ([Call] + [])) == [Call, Call, Call];
  }

  /** Two gateway timeouts and then an image: three calls and no wait. */
  lemma GatewayTimeoutsRetryAtOnce(attempts: seq<Attempt>, url: string)
    requires |attempts| >= MaxRetries
    requires Judge(attempts[0]) == GatewayTimeout && Judge(attempts[1]) == GatewayTimeout
    requires Judge(attempts[2]) == Image(url)
    ensures FinalState(attempts, Attempting(0)) == Succeeded(url)
    ensures Trace(attempts, Attempting(0)) == [Call, Call, Call]
  {
    UnfoldTurn(attempts, 0);
    UnfoldTurn(attempts, 1);
    UnfoldTurn(attempts, 2);
    Terminal(attempts, Succeeded(url));
    assert [Call] + ([Call] + ([Call] + [])) == [Call, Call, Call];
  }

  /** Two other failures and then an image: a wait after each failure. */
  lemma FailuresRetryAfterWait(attempts: seq<Attempt>, url: string, m1: string, m2: string)
    requires |attempts| >= MaxRetries
    requires Judge(attempts[0]) == Failure(m1) && Judge(attempts[1]) == Failure(m2)
    requires Judge(attempts[2]) == Image(url)
    ensures FinalState(attempts, Attempting(0)) == Succeeded(url)
    ensures Trace(attempts, Attempting(0)) == [Call, Wait, Call, Wait, Call]
  {
    UnfoldTurn(attempts, 0);
    UnfoldTurn(attempts, 1);
    UnfoldTurn(attempts, 2);
    Terminal(attempts, Succeeded(url));
    assert [Call, Wait] + ([Call, Wait] + ([Call] + [])) == [Call, Wait, Call, Wait, Call];
  }

  /** What the endpoint answers reaches the loop as: an image or an
      invalid URL on 200, a gateway timeout on 504, and a plain failure
      carrying the endpoint's message on every other status, 422 included. */
  lemma RouteAnswersAsSeenByLoop(req: Request, token: string, provider: ProviderAnswer)
    ensures var r := Post(req, token, provider);
            var v := Judge(Answered(r.status, Parsed(r.body)));
            && (r.status == 504 ==> v == GatewayTimeout)
            && (r.status == 200 && ChosenUrl(provider.output) != "" ==> v == Image(ChosenUrl(provider.output)))
            && (r.status == 200 && ChosenUrl(provider.output) == "" ==> v == Failure(InvalidImageUrl))
            && (r.status != 200 && r.status != 504 ==> v == Failure(r.body.error))
  {
  }

  /** A connection timeout at the endpoint (408) that ends the loop shows
      the timeout hint. */
  lemma ConnectionTimeoutShowsHint()
    ensures ShownMessage(ConnectionTimeoutError) == TimeoutHint
  {
    assert OccursAt(ConnectionTimeoutError, "超时", 2);
  }

  // ---------------------------------------------------------------------
  // The component

  /** The component's state: the prompt field, the image shown, the error
      shown, the loading flag, and where the router was sent. */
  class Generator {
    var prompt: string
    var image: Option<string>
    var error: Option<string>
    var loading: bool
    var route: Option<string>

    constructor ()
      ensures prompt == "" && image == None && error == None && !loading && route == None
    {
      prompt := "";
      image := None;
      error := None;
      loading := false;
      route := None;
    }

    /** `generateImage()` for the signed-in user `user` (None when signed
        out); returns the calls and waits it made. */
    method GenerateImage(user: Option<string>, attempts: seq<Attempt>, store: Backend, env: SaveEnv)
      returns (trace: seq<Event>)
      requires |attempts| >= MaxRetries
      modifies this, store
      ensures prompt == old(prompt)
      ensures user.None? ==>
                && error == Some(SignInFirst) && route == Some(LoginRoute) && trace == []
                && image == old(image) && loading == old(loading)
                && store.State() == old(store.State())
      ensures user.Some? && Trim(prompt) == "" ==>
                && error == Some(EnterPrompt) && trace == []
                && image == old(image) && loading == old(loading) && route == old(route)
                && store.State() == old(store.State())
      ensures user.Some? && Trim(prompt) != "" ==>
                && trace == Trace(attempts, Attempting(0)) && !loading && route == old(route)
                && match FinalState(attempts, Attempting(0))
                   case Succeeded(url) =>
                     var saved := SaveEffect(old(store.State()), store.endpoint, user.value, prompt, url, env);
                     && image == Some(url)
                     && store.State() == saved.0
                     && error == (if saved.1.Ok? then None else Some(SavedPartially))
                   case Rethrown(m) =>
                     image == old(image) && error == Some(ShownMessage(m)) && store.State() == old(store.State())
                   case Attempting(_) =>
                     image == old(image) && error == None && store.State() == old(store.State())
    {
      if user.None? {
        error := Some(SignInFirst);
        route := Some(LoginRoute);
        return [];
      }
      if Trim(prompt) == "" {
        error := Some(EnterPrompt);
        return [];
      }
      loading := true;
      error := None;
      var end;
      end, trace := RetryLoop(attempts);
      match end {
        case Succeeded(url) =>
          image := Some(url);
          var saved := store.SaveDesign(user.value, prompt, url, env);
          if saved.Err? {
            error := Some(SavedPartially);
          }
        case Rethrown(m) =>
          error := Some(ShownMessage(m));
        case Attempting(_) =>
      }
      loading := false;
    }
  }
}
