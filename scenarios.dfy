/** Clients of the problem service that derive the documented outcomes of a
    generate-then-grade session from the contracts alone. */
module Scenarios {
  import opened Json
  import opened Text
  import opened ProblemService

  /** A grader reply that carries only a padded feedback normalises to an
      incorrect verdict, the trimmed feedback and a null hint. */
  lemma PaddedFeedbackOnly()
    ensures NormalizeGrade("p", map["feedback" := JString(" good job ")])
            == Success(Graded("p", Verdict(false, "good job", JNull)))
  {
    var s := " good job ";
    assert LeadingSpaces(s[1..]) == 0;
    assert LeadingSpaces(s) == 1;
    assert TrailingSpaces(s[..|s| - 1]) == 0;
    assert TrailingSpaces(s) == 1;
    assert Strip(s) == s[1..|s| - 1] == "good job";
  }

  /** A generator reply that uses only the short-form keys. */
  const ShortFormReply: Payload := map[
    "prompt" := JString("Solve x+2=5"),
    "solution" := JString("x=3"),
    "final_answer" := JString("3"),
    "rubric" := JString("check arithmetic")]

  /** A grader reply that marks the answer correct and omits the hint. */
  const CorrectReply: Payload := map["correct" := JBool(true), "feedback" := JString("Nice work")]

  /** Each field of the short-form reply is found under its short-form key. */
  lemma ShortFormDisplay()
    ensures Coalesced(ShortFormReply, DisplayKeys, "") == "Solve x+2=5"
  {
    assert "display_md" !in ShortFormReply;
    assert "prompt" in ShortFormReply && ShortFormReply["prompt"] == JString("Solve x+2=5");
    assert !IsSpace("Solve x+2=5"[0]);
    ShortFormField(ShortFormReply, "display_md", "prompt", "Solve x+2=5");
  }

  lemma ShortFormSolution()
    ensures Coalesced(ShortFormReply, SolutionKeys, "") == "x=3"
  {
    assert "solution_md" !in ShortFormReply;
    assert "solution" in ShortFormReply && ShortFormReply["solution"] == JString("x=3");
    assert !IsSpace("x=3"[0]);
    ShortFormField(ShortFormReply, "solution_md", "solution", "x=3");
  }

  lemma ShortFormFinalAnswer()
    ensures Coalesced(ShortFormReply, FinalAnswerKeys, "") == "3"
  {
    assert "final_answer_tex" !in ShortFormReply;
    assert "final_answer" in ShortFormReply && ShortFormReply["final_answer"] == JString("3");
    assert !IsSpace("3"[0]);
    ShortFormField(ShortFormReply, "final_answer_tex", "final_answer", "3");
  }

  lemma ShortFormRubric()
    ensures Coalesced(ShortFormReply, RubricKeys, "") == "check arithmetic"
  {
    assert "rubric_md" !in ShortFormReply;
    assert "rubric" in ShortFormReply && ShortFormReply["rubric"] == JString("check arithmetic");
    assert !IsSpace("check arithmetic"[0]);
    ShortFormField(ShortFormReply, "rubric_md", "rubric", "check arithmetic");
  }

  /** A field whose long-form key is absent takes the short-form value when
      that value has content. */
  lemma ShortFormField(payload: Payload, long: string, short: string, value: string)
    requires long !in payload && short in payload
    requires payload[short] == JString(value)
    requires !AllSpace(value)
    ensures Coalesced(payload, [long, short], "") == value
  {
    CoalescedPair(payload, long, short);
  }

  /** The correct-answer reply normalises to a correct verdict with its
      feedback unchanged and a null hint. */
  lemma CorrectReplyNormalizes(problemId: string)
    ensures NormalizeGrade(problemId, CorrectReply)
            == Success(Graded(problemId, Verdict(true, "Nice work", JNull)))
  {
    assert "correct" in CorrectReply && CorrectReply["correct"] == JBool(true);
    assert "feedback" in CorrectReply && CorrectReply["feedback"] == JString("Nice work");
    assert "hint" !in CorrectReply;
    assert LeadingSpaces("Nice work") == 0;
    assert TrailingSpaces("Nice work") == 0;
    assert Strip("Nice work") == "Nice work";
  }

  /** Generating from the short-form reply shows the student exactly the
      problem text and keeps the final answer and the requested topic on the
      server. */
  method GenerateFromShortForm()
  {
    var service := new Service();
    ShortFormDisplay();
    var shown := service.GenerateProblem("algebra", "easy", Replied(JObject(ShortFormReply)), "p-1");
    assert shown == Success(map["id" := "p-1", "prompt" := "Solve x+2=5"]);
  }

  /** The stored problem keeps the short-form final answer and falls back to
      the requested topic, which the reply does not give. */
  method StoredFromShortForm()
  {
    var service := new Service();
    ShortFormFinalAnswer();
    assert "topic" !in ShortFormReply;
    var shown := service.GenerateProblem("algebra", "easy", Replied(JObject(ShortFormReply)), "p-1");
    assert shown.Success?;
    assert service.store["p-1"].finalAnswer == "3";
    assert service.store["p-1"].topic == JString("algebra");
  }

  /** Grading the generated problem with the correct-answer reply yields a
      correct verdict with no hint. */
  method GenerateThenGrade()
  {
    var service := new Service();
    var shown := service.GenerateProblem("algebra", "easy", Replied(JObject(ShortFormReply)), "p-1");
    CorrectReplyNormalizes("p-1");
    var graded := service.GradeProblem("p-1", "x=5-2", "3", Replied(JObject(CorrectReply)));
    assert graded == Success(Graded("p-1", Verdict(true, "Nice work", JNull)));
  }

  /** Grading an unknown id fails and sends nothing to the gateway. */
  method GradeUnknownId()
  {
    var service := new Service();
    var graded := service.GradeProblem("does-not-exist", "", "", Replied(JObject(CorrectReply)));
    assert graded == Failure(UnknownProblemId);
    assert service.requests == [];
  }

  /** Two gradings of one stored problem with different submissions leave the
      store as it was and send the same hidden references both times. */
  method GradeTwice(service: Service, problemId: string, reply1: GatewayReply, reply2: GatewayReply)
    requires service.Valid() && problemId in service.store
    modifies service`requests
  {
    var stored := service.store;
    var first := service.GradeProblem(problemId, "x=5-2", "3", reply1);
    var second := service.GradeProblem(problemId, "x=2", "2", reply2);
    assert service.store == stored;
    var n := |service.requests|;
    assert service.requests[n - 2].solution == service.requests[n - 1].solution == stored[problemId].solution;
    assert service.requests[n - 2].finalAnswer == service.requests[n - 1].finalAnswer == stored[problemId].finalAnswer;
    assert service.requests[n - 2].rubric == service.requests[n - 1].rubric == stored[problemId].rubric;
  }
}
