/** The problem lifecycle of the math problem service: defensive coalescing of
    the generator's reply, the server-side store of problem records, and
    grading against the hidden reference fields of a stored record. The
    language-model gateway is not modelled; its reply to each request is an
    argument, and every request sent to it is recorded. */
module ProblemService {
  import opened Json
  import opened Text

  /** The chat model both requests name. */
  const Model: string := "gpt-4o-mini"

  /** The candidate keys of each coalesced field: the long-form key first,
      then the short-form key. */
  const DisplayKeys: seq<string> := ["display_md", "prompt"]
  const SolutionKeys: seq<string> := ["solution_md", "solution"]
  const FinalAnswerKeys: seq<string> := ["final_answer_tex", "final_answer"]
  const RubricKeys: seq<string> := ["rubric_md", "rubric"]

  /** A stored problem: what the student sees, the hidden references used for
      grading, and the descriptive metadata exactly as the generator gave it. */
  datatype Problem = Problem(
    id: string,
    displayMd: string,
    solution: string,
    finalAnswer: string,
    rubric: string,
    title: JsonValue,
    topic: JsonValue,
    difficulty: JsonValue)

  /** The arguments of one call to the model gateway: the model and the values
      interpolated into the generation or the grading prompt. */
  datatype Request =
    | GeneratorRequest(model: string, problemType: string, difficulty: string)
    | GraderRequest(model: string, solution: string, finalAnswer: string, rubric: string,
                    userWork: string, userAnswer: string)

  /** What one gateway call yields: the decoded JSON reply, or the failure of
      the endpoint call, or a reply that is not JSON. */
  datatype GatewayReply = Replied(body: JsonValue) | Unavailable | Malformed

  datatype Error =
    | UnknownProblemId    // ValueError("Unknown problem_id")
    | GatewayUnavailable  // the endpoint call raised
    | MalformedResponse   // json.loads raised
    | NotAnObject         // the reply is JSON but has no .get: AttributeError
    | FeedbackNotString   // .strip() on a non-string feedback: AttributeError

  datatype Result<T> = Success(value: T) | Failure(error: Error)

  /** The normalised grader verdict and the grading response around it. */
  datatype Verdict = Verdict(correct: bool, feedback: string, hint: JsonValue)
  datatype Graded = Graded(problemId: string, result: Verdict)

  /** The reply payload the service goes on to read, or the error with which
      the service call fails. */
  function PayloadOf(reply: GatewayReply): Result<Payload>
  {
    match reply
    case Unavailable => Failure(GatewayUnavailable)
    case Malformed => Failure(MalformedResponse)
    case Replied(body) => if body.JObject? then Success(body.fields) else Failure(NotAnObject)
  }

  // ---------------------------------------------------------------------------
  // Coalescing
  // ---------------------------------------------------------------------------

  /** `payload[key]` is a string with a non-whitespace character in it. */
  predicate Qualifies(payload: Payload, key: string) {
    key in payload && payload[key].JString? && Strip(payload[key].s) != ""
  }

  /** The value of the first qualifying key of `keys`, or `default`. The result
      is the default or the string under one of the qualifying keys. */
  function Coalesced(payload: Payload, keys: seq<string>, default: string): (r: string)
    ensures r == default
         || exists i :: 0 <= i < |keys| && Qualifies(payload, keys[i]) && payload[keys[i]] == JString(r)
  {
    if keys == [] then default
    else if Qualifies(payload, keys[0]) then payload[keys[0]].s
    else
      var r := Coalesced(payload, keys[1..], default);
      assert forall i :: 0 <= i < |keys| - 1 ==> keys[1..][i] == keys[i + 1];
      r
  }

  /** The coalescing loop: walk the keys in order and return the first value
      that is a string with non-whitespace content. */
  method Coalesce(payload: Payload, keys: seq<string>, default: string) returns (r: string)
    ensures r == Coalesced(payload, keys, default)
  {
    for i := 0 to |keys|
      invariant Coalesced(payload, keys[i..], default) == Coalesced(payload, keys, default)
    {
      assert keys[i..][1..] == keys[i + 1..];
      var k := keys[i];
      if k in payload {
        var v := payload[k];
        if v.JString? && Strip(v.s) != "" {
          return v.s;
        }
      }
    }
    return default;
  }

  /** The first qualifying key decides: its value is the result. */
  lemma {:induction false} CoalescedFirstQualifying(payload: Payload, keys: seq<string>, default: string, i: nat)
    requires i < |keys| && Qualifies(payload, keys[i])
    requires forall j :: 0 <= j < i ==> !Qualifies(payload, keys[j])
    ensures Coalesced(payload, keys, default) == payload[keys[i]].s
  {
    if i > 0 {
      assert !Qualifies(payload, keys[0]);
      CoalescedFirstQualifying(payload, keys[1..], default, i - 1);
    }
  }

  /** When no key qualifies (each is absent, not a string, or blank) the
      result is the default. */
  lemma {:induction false} CoalescedNoneQualifies(payload: Payload, keys: seq<string>, default: string)
    requires forall j :: 0 <= j < |keys| ==> !Qualifies(payload, keys[j])
    ensures Coalesced(payload, keys, default) == default
  {
    if keys != [] {
      assert !Qualifies(payload, keys[0]);
      CoalescedNoneQualifies(payload, keys[1..], default);
    }
  }

  /** Once a key qualifies, the keys after it are never consulted. */
  lemma {:induction false} CoalescedIgnoresLaterKeys(payload: Payload, keys: seq<string>, later: seq<string>, default: string)
    requires exists i :: 0 <= i < |keys| && Qualifies(payload, keys[i])
    ensures Coalesced(payload, keys + later, default) == Coalesced(payload, keys, default)
  {
    assert keys != [];
    if !Qualifies(payload, keys[0]) {
      assert (keys + later)[1..] == keys[1..] + later;
      var i :| 0 <= i < |keys| && Qualifies(payload, keys[i]);
      assert keys[1..][i - 1] == keys[i];
      CoalescedIgnoresLaterKeys(payload, keys[1..], later, default);
    }
  }

  /** The two-key rule every field of a generated problem follows: the long
      form wins when it has content, a blank or non-string long form falls
      through to the short form, and the empty string is left when neither
      has content. */
  lemma CoalescedPair(payload: Payload, long: string, short: string)
    ensures Qualifies(payload, long) ==> Coalesced(payload, [long, short], "") == payload[long].s
    ensures (!Qualifies(payload, long) && Qualifies(payload, short))
              ==> Coalesced(payload, [long, short], "") == payload[short].s
    ensures (!Qualifies(payload, long) && !Qualifies(payload, short))
              ==> Coalesced(payload, [long, short], "") == ""
  {
    if !Qualifies(payload, long) && Qualifies(payload, short) {
      CoalescedFirstQualifying(payload, [long, short], "", 1);
    } else if !Qualifies(payload, long) && !Qualifies(payload, short) {
      CoalescedNoneQualifies(payload, [long, short], "");
    }
  }

  /** What generation hands back to the caller: exactly the id and the display
      text under the key "prompt". None of the hidden fields is among its keys. */
  function PublicView(problem: Problem): (v: map<string, string>)
    ensures v.Keys == {"id", "prompt"}
    ensures v["id"] == problem.id && v["prompt"] == problem.displayMd
    ensures "solution" !in v && "final_answer" !in v && "rubric" !in v
  {
    map["id" := problem.id, "prompt" := problem.displayMd]
  }

  // ---------------------------------------------------------------------------
  // Grading
  // ---------------------------------------------------------------------------

  /** The normalised form of the grading model's reply. `correct` is the truthiness
      of the reply's value, false when it is absent; `feedback` is the reply's
      string with surrounding whitespace removed, the empty string when absent;
      `hint` is passed through, null when absent. A feedback value that is
      present but not a string fails the call. */
  function NormalizeGrade(problemId: string, payload: Payload): (r: Result<Graded>)
    ensures r.Failure? <==> "feedback" in payload && !payload["feedback"].JString?
    ensures r.Failure? ==> r.error == FeedbackNotString
    ensures r.Success? ==> r.value.problemId == problemId
    ensures r.Success? ==> (r.value.result.correct <==> "correct" in payload && Truthy(payload["correct"]))
    ensures r.Success? && "feedback" !in payload ==> r.value.result.feedback == ""
    ensures r.Success? && "feedback" in payload ==> r.value.result.feedback == Strip(payload["feedback"].s)
    ensures r.Success? ==> r.value.result.hint == (if "hint" in payload then payload["hint"] else JNull)
  {
    var feedback := Get(payload, "feedback", JString(""));
    if !feedback.JString? then Failure(FeedbackNotString)
    else
      Success(Graded(problemId, Verdict(
        Truthy(Get(payload, "correct", JBool(false))),
        Strip(feedback.s),
        Get(payload, "hint", JNull))))
  }

  /** A normalised feedback never starts or ends with whitespace. */
  lemma NormalizedFeedbackIsTrimmed(problemId: string, payload: Payload)
    requires NormalizeGrade(problemId, payload).Success?
    ensures var f := NormalizeGrade(problemId, payload).value.result.feedback;
            f == [] || (!IsSpace(f[0]) && !IsSpace(f[|f| - 1]))
  {
  }

  // ---------------------------------------------------------------------------
  // The service and its store
  // ---------------------------------------------------------------------------

  /** The process-wide problem store, with a record of the gateway calls made
      on its behalf. */
  class Service {
    /** Problem id to problem record; records are only ever added. */
    var store: map<string, Problem>
    /** Every request sent to the model gateway, oldest first. */
    ghost var requests: seq<Request>

    /** Every record sits under its own id. */
    ghost predicate Valid()
      reads this
    {
      forall id :: id in store ==> store[id].id == id
    }

    constructor ()
      ensures Valid()
      ensures store == map[] && requests == []
    {
      store := map[];
      requests := [];
    }

    /** Ask the gateway for a new problem (its answer is `reply`), coalesce the
        four fields, store the full record under the fresh id `pid` and return
        only the id and the display text. On a failed gateway call or a reply
        that is not an object the store is left as it was. */
    method GenerateProblem(problemType: string, difficulty: string, reply: GatewayReply, pid: string)
      returns (r: Result<map<string, string>>)
      requires Valid()
      requires pid != "" && pid !in store
      modifies this
      ensures Valid()
      ensures requests == old(requests) + [GeneratorRequest(Model, problemType, difficulty)]
      ensures r.Failure? <==> PayloadOf(reply).Failure?
      ensures r.Failure? ==> r.error == PayloadOf(reply).error && store == old(store)
      ensures r.Success? ==>
        && store.Keys == old(store).Keys + {pid}
        && |store| == |old(store)| + 1
        && (forall id :: id in old(store) ==> id in store && store[id] == old(store)[id])
      ensures r.Success? ==>
        var payload := PayloadOf(reply).value;
        && store[pid].id == pid
        && store[pid].displayMd == Coalesced(payload, DisplayKeys, "")
        && store[pid].solution == Coalesced(payload, SolutionKeys, "")
        && store[pid].finalAnswer == Coalesced(payload, FinalAnswerKeys, "")
        && store[pid].rubric == Coalesced(payload, RubricKeys, "")
        && store[pid].title == Get(payload, "title", JString(""))
        && store[pid].topic == Get(payload, "topic", JString(problemType))
        && store[pid].difficulty == Get(payload, "difficulty", JString(difficulty))
      ensures r.Success? ==> r.value == PublicView(store[pid])
    {
      requests := requests + [GeneratorRequest(Model, problemType, difficulty)];
      var got := PayloadOf(reply);
      if got.Failure? {
        return Failure(got.error);
      }
      var payload := got.value;
      var displayMd := Coalesce(payload, DisplayKeys, "");
      var solutionMd := Coalesce(payload, SolutionKeys, "");
      var finalAnswer := Coalesce(payload, FinalAnswerKeys, "");
      var rubricMd := Coalesce(payload, RubricKeys, "");
      var record := Problem(
        pid, displayMd, solutionMd, finalAnswer, rubricMd,
        Get(payload, "title", JString("")),
        Get(payload, "topic", JString(problemType)),
        Get(payload, "difficulty", JString(difficulty)));
      ghost var before := store;
      store := store[pid := record];
      assert store.Keys == before.Keys + {pid};
      assert |store| == |store.Keys| == |before.Keys| + 1;
      r := Success(PublicView(record));
    }

    /** Grade a submission against the stored problem `problemId`. An unknown
        id fails before the gateway is asked; otherwise the grading request is
        built from the stored hidden fields and the student's work and answer,
        and the gateway's answer (`reply`) is normalised. The store is never
        changed. */
    method GradeProblem(problemId: string, userWork: string, userAnswer: string, reply: GatewayReply)
      returns (r: Result<Graded>)
      requires Valid()
      modifies this`requests
      ensures Valid() && store == old(store)
      ensures problemId !in store ==> r == Failure(UnknownProblemId) && requests == old(requests)
      ensures problemId in store ==>
        var ref := store[problemId];
        requests == old(requests) + [GraderRequest(Model, ref.solution, ref.finalAnswer, ref.rubric, userWork, userAnswer)]
      ensures problemId in store && PayloadOf(reply).Failure? ==> r == Failure(PayloadOf(reply).error)
      ensures problemId in store && PayloadOf(reply).Success? ==>
        r == NormalizeGrade(problemId, PayloadOf(reply).value)
    {
      if problemId !in store {
        return Failure(UnknownProblemId);
      }
      var ref := store[problemId];
      requests := requests + [GraderRequest(Model, ref.solution, ref.finalAnswer, ref.rubric, userWork, userAnswer)];
      var got := PayloadOf(reply);
      if got.Failure? {
        return Failure(got.error);
      }
      r := NormalizeGrade(problemId, got.value);
    }
  }
}
