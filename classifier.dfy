/** The heuristic message classifier (services/ai_classifier.py): keyword counts over
    the lower-cased subject and snippet pick a label and a base priority, sender-based
    business rules raise the priority, and the batch driver classifies a list of
    messages one by one, counting failures instead of stopping. */
module Classifier {
  import opened Wrappers
  import opened Basics
  import opened Text
  import opened MessageModel
  import opened ClassificationModel

  const UrgencyWords: seq<string> := ["urgent", "asap", "deadline", "due tomorrow", "critical", "immediately"]
  const ActionWords: seq<string> := ["need to", "should", "must", "please", "can you", "action", "task", "todo"]
  const FollowupWords: seq<string> := ["follow up", "follow-up", "reminder", "check", "status", "update"]
  const NoiseWords: seq<string> := ["newsletter", "unsubscribe", "marketing", "promotion", "sale"]

  /** The text the keywords are searched in: subject (or nothing), a space, the snippet, lower-cased. */
  function Content(m: Message): string
  {
    Lower(SubjectText(m) + " " + m.snippet)
  }

  /** How many entries of `words` occur in `content` (`sum(1 for w in words if w in content)`). */
  function Score(words: seq<string>, content: string): (n: nat)
    ensures n <= |words|
  {
    if words == [] then 0
    else (if Contains(content, words[0]) then 1 else 0) + Score(words[1..], content)
  }

  ghost predicate Distinct(words: seq<string>)
  {
    forall i, j :: 0 <= i < j < |words| ==> words[i] != words[j]
  }

  /** The vocabulary entries that occur in `content`. */
  ghost function Present(words: seq<string>, content: string): set<string>
  {
    set w | w in words && Contains(content, w)
  }

  /** A score is the number of DIFFERENT vocabulary entries present, however often each occurs. */
  lemma {:induction false} ScoreCountsEntriesPresent(words: seq<string>, content: string)
    requires Distinct(words)
    ensures Score(words, content) == |Present(words, content)|
  {
    if words == [] {
      assert Present(words, content) == {};
    } else {
      var first, rest := words[0], words[1..];
      assert Distinct(rest);
      ScoreCountsEntriesPresent(rest, content);
      var head := if Contains(content, first) then {first} else {};
      forall w | w in Present(words, content) ensures w in head + Present(rest, content) {
        if w != first {
          assert w in rest;
        }
      }
      assert Present(words, content) == head + Present(rest, content);
      assert first !in rest;
    }
  }

  lemma VocabulariesDistinct()
    ensures Distinct(UrgencyWords) && Distinct(ActionWords) && Distinct(FollowupWords) && Distinct(NoiseWords)
  {
  }

  /** The four keyword scores of one message text. */
  datatype Scores = Scores(urgency: nat, action: nat, followup: nat, noise: nat)

  function ScoresOf(content: string): (s: Scores)
    ensures s.urgency <= 6 && s.action <= 8 && s.followup <= 6 && s.noise <= 5
  {
    Scores(Score(UrgencyWords, content), Score(ActionWords, content),
           Score(FollowupWords, content), Score(NoiseWords, content))
  }

  /** The first-match label cascade. Its FOLLOWUP branch can never be taken: the
      branch before it already labels every message with a follow-up keyword TODO. */
  function LabelFor(s: Scores): (l: Label)
    ensures l != Followup
    ensures s.noise > 0 && s.action == 0 ==> l == Noise
    ensures l == Todo <==> (s.noise == 0 || s.action > 0) && (s.urgency >= 2 || s.action >= 2 || s.followup >= 1)
  {
    if s.noise > 0 && s.action == 0 then Noise
    else if s.urgency >= 2 || (s.urgency >= 1 && s.action >= 2) then Todo
    else if s.action >= 2 || s.followup >= 1 then Todo
    else if s.followup >= 1 then Followup
    else Noise
  }

  /** The first-match base-priority cascade over the urgency and action scores. */
  function BasePriority(s: Scores): (p: int)
    ensures p in {3, 5, 6, 7, 9}
    ensures p >= 7 <==> s.urgency >= 1
    ensures p == 9 <==> s.urgency >= 2
    ensures p == 3 <==> s.urgency == 0 && s.action == 0
    ensures s.urgency == 0 ==> (p == 6 <==> s.action >= 2) && (p == 5 <==> s.action == 1)
    ensures p == 7 <==> s.urgency == 1
  {
    if s.urgency >= 2 then 9
    else if s.urgency >= 1 then 7
    else if s.action >= 2 then 6
    else if s.action >= 1 then 5
    else 3
  }

  /** More urgency or action keywords never lower the base priority. */
  lemma BasePriorityMonotone(s: Scores, t: Scores)
    requires s.urgency <= t.urgency && s.action <= t.action
    ensures BasePriority(s) <= BasePriority(t)
  {
  }

  function Min(a: int, b: int): int { if a <= b then a else b }

  /** The total boost the sender earns: 3 for "ceo" or "boss" (once, even if both
      occur), 2 for "legal", 1 for "manager", matched in the lower-cased sender. */
  function SenderBoost(sender: string): (b: nat)
    ensures b <= 6
  {
    var s := Lower(sender);
    (if Contains(s, "ceo") || Contains(s, "boss") then 3 else 0)
    + (if Contains(s, "legal") then 2 else 0)
    + (if Contains(s, "manager") then 1 else 0)
  }

  /** `_apply_business_rules`: the three boosts applied in turn, each capped at 10.
      The result is the base plus the whole boost, capped once at 10, and the base
      itself when the sender matches none of the four words. */
  function ApplyBusinessRules(sender: string, base: int): (p: int)
    ensures p == (if SenderBoost(sender) == 0 then base else Min(10, base + SenderBoost(sender)))
    ensures base <= 10 ==> base <= p <= 10
  {
    var s := Lower(sender);
    var p1 := if Contains(s, "ceo") || Contains(s, "boss") then Min(10, base + 3) else base;
    var p2 := if Contains(s, "legal") then Min(10, p1 + 2) else p1;
    var p3 := if Contains(s, "manager") then Min(10, p2 + 1) else p2;
    p3
  }

  /** `_mock_classify_message`: the heuristic classification of one message. It
      always validates: the final priority lies in 3..10, the label is never FOLLOWUP. */
  function MockClassify(m: Message, clsId: Uuid, now: Timestamp): (r: Result<Classification, string>)
    ensures r.Ok?
    ensures r.value.msgId == m.msgId && r.value.clsId == clsId && r.value.userId.None?
    ensures 3 <= r.value.priority <= 10
    ensures r.value.category != Followup
    ensures var s := ScoresOf(Content(m)); s.noise > 0 && s.action == 0 ==> r.value.category == Noise
  {
    var s := ScoresOf(Content(m));
    var base := BasePriority(s);
    NewClassificationRead(clsId, m.msgId, None, LabelFor(s), ApplyBusinessRules(m.sender, base), now)
  }

  /** The heuristic's label and priority are the label cascade and the boosted base
      priority of the message's scores, so the rules proved about `LabelFor`,
      `BasePriority` and `ApplyBusinessRules` hold of every heuristic classification. */
  lemma MockClassifyRules(m: Message, clsId: Uuid, now: Timestamp)
    ensures var s := ScoresOf(Content(m));
            var r := MockClassify(m, clsId, now);
            && r.value.category == LabelFor(s)
            && r.value.priority == ApplyBusinessRules(m.sender, BasePriority(s))
            && r.value.createdAt == now
  {
  }

  /** A sender naming the CEO or the boss, and no other boost word, raises the
      base priority by three, up to 10. */
  lemma CeoSenderBoost(m: Message, clsId: Uuid, now: Timestamp)
    requires Contains(Lower(m.sender), "ceo") || Contains(Lower(m.sender), "boss")
    requires !Contains(Lower(m.sender), "legal") && !Contains(Lower(m.sender), "manager")
    ensures MockClassify(m, clsId, now).value.priority == Min(10, BasePriority(ScoresOf(Content(m))) + 3)
  {
    MockClassifyRules(m, clsId, now);
  }

  /** `_ai_classify_message`: delegates to the heuristic, so it too always
      validates, for the message and the drawn id, with a priority in 3..10 and
      never FOLLOWUP. */
  function AiClassify(m: Message, clsId: Uuid, now: Timestamp): (r: Result<Classification, string>)
    ensures r.Ok? && r.value.msgId == m.msgId && r.value.clsId == clsId && r.value.userId.None?
    ensures 3 <= r.value.priority <= 10 && r.value.category != Followup
    ensures r.value.createdAt == now
    ensures r == MockClassify(m, clsId, now)
  {
    MockClassify(m, clsId, now)
  }

  /** The classifier's settings; `__init__` leaves the API key unset and turns mock mode on. */
  datatype Settings = Settings(openaiApiKey: Option<string>, mockMode: bool)

  const InitialSettings := Settings(None, true)

  /** One iteration's classification attempt: either mode yields the heuristic result. */
  function ClassifyOne(settings: Settings, m: Message, clsId: Uuid, now: Timestamp): (r: Result<Classification, string>)
    ensures r == MockClassify(m, clsId, now)
  {
    if settings.mockMode then MockClassify(m, clsId, now) else AiClassify(m, clsId, now)
  }

  /** The classifications a batch produces, in input order, skipping failed messages.
      `clsIds[i]` is the fresh id drawn for `messages[i]`. */
  function Classified(settings: Settings, messages: seq<Message>, clsIds: seq<Uuid>, now: Timestamp): (cs: seq<Classification>)
    requires |clsIds| == |messages|
    ensures |cs| <= |messages|
  {
    if messages == [] then []
    else
      var n := |messages| - 1;
      var earlier := Classified(settings, messages[..n], clsIds[..n], now);
      match ClassifyOne(settings, messages[n], clsIds[n], now)
      case Ok(c) => earlier + [c]
      case Err(_) => earlier
  }

  /** How many messages of a batch failed to classify. */
  function Failures(settings: Settings, messages: seq<Message>, clsIds: seq<Uuid>, now: Timestamp): (k: nat)
    requires |clsIds| == |messages|
    ensures k + |Classified(settings, messages, clsIds, now)| == |messages|
  {
    if messages == [] then 0
    else
      var n := |messages| - 1;
      Failures(settings, messages[..n], clsIds[..n], now)
      + (if ClassifyOne(settings, messages[n], clsIds[n], now).Err? then 1 else 0)
  }

  /** The heuristic never fails: every message yields its classification, at its
      own position and carrying its own message id. */
  lemma {:induction false} BatchClassifiesEveryMessage(settings: Settings, messages: seq<Message>, clsIds: seq<Uuid>, now: Timestamp)
    requires |clsIds| == |messages|
    ensures Failures(settings, messages, clsIds, now) == 0
    ensures |Classified(settings, messages, clsIds, now)| == |messages|
    ensures forall i :: 0 <= i < |messages| ==>
              Classified(settings, messages, clsIds, now)[i] == MockClassify(messages[i], clsIds[i], now).value
  {
    if messages != [] {
      var n := |messages| - 1;
      var pre, ids := messages[..n], clsIds[..n];
      BatchClassifiesEveryMessage(settings, pre, ids, now);
      var last := ClassifyOne(settings, messages[n], clsIds[n], now);
      assert last == MockClassify(messages[n], clsIds[n], now) && last.Ok?;
      var cs := Classified(settings, messages, clsIds, now);
      assert cs == Classified(settings, pre, ids, now) + [last.value];
      forall i | 0 <= i < |messages| ensures cs[i] == MockClassify(messages[i], clsIds[i], now).value {
        if i < n {
          assert pre[i] == messages[i] && ids[i] == clsIds[i];
        }
      }
    }
  }

  /** `classify_messages`: classify each message in turn; a failing message is
      counted and skipped, the others are collected in order. */
  method ClassifyMessages(settings: Settings, messages: seq<Message>, clsIds: seq<Uuid>, now: Timestamp)
    returns (resp: ClassificationResponse)
    requires |clsIds| == |messages|
    ensures resp.totalProcessed == |messages|
    ensures resp.successCount + resp.errorCount == |messages|
    ensures resp.classifications == Classified(settings, messages, clsIds, now)
    ensures resp.successCount == |resp.classifications|
    ensures resp.errorCount == Failures(settings, messages, clsIds, now) == 0
    ensures forall i :: 0 <= i < |messages| ==> resp.classifications[i].msgId == messages[i].msgId
  {
    var classifications: seq<Classification> := [];
    var successCount := 0;
    var errorCount := 0;
    for i := 0 to |messages|
      invariant classifications == Classified(settings, messages[..i], clsIds[..i], now)
      invariant errorCount == Failures(settings, messages[..i], clsIds[..i], now)
      invariant successCount == |classifications|
    {
      assert messages[..i + 1][..i] == messages[..i] && clsIds[..i + 1][..i] == clsIds[..i];
      var outcome := ClassifyOne(settings, messages[i], clsIds[i], now);
      match outcome {
        case Ok(c) =>
          classifications := classifications + [c];
          successCount := successCount + 1;
        case Err(_) =>
          errorCount := errorCount + 1;
      }
    }
    assert messages[..|messages|] == messages && clsIds[..|messages|] == clsIds;
    BatchClassifiesEveryMessage(settings, messages, clsIds, now);
    resp := ClassificationResponse(classifications, |messages|, successCount, errorCount);
  }
}
