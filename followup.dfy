/**
 * The follow-up helpers of lib/follow-up-helpers.ts: `detectFollowUpIntent`
 * counts, per intent, the keywords that occur in the lowercased message and
 * picks the intent with the strictly greatest count; while
 * `generateFollowUpInstructions` puts a task block after a fixed opening
 * that quotes the request.
 */
module FollowUp {
  import opened Seqs
  import opened Text

  datatype Intent = Add | Modify | Fix | Style | General

  const AddKeywords: seq<string> := ["add", "include", "insert", "create", "new", "also", "table", "chart", "card", "filter"]
  const ModifyKeywords: seq<string> := ["change", "modify", "update", "edit", "replace", "swap", "different"]
  const FixKeywords: seq<string> := ["fix", "error", "bug", "broken", "not working", "issue", "problem"]
  const StyleKeywords: seq<string> := ["color", "style", "theme", "design", "appearance", "ui", "ux", "layout"]

  function KeywordsOf(intent: Intent): seq<string>
  {
    match intent
    case Add => AddKeywords
    case Modify => ModifyKeywords
    case Fix => FixKeywords
    case Style => StyleKeywords
    case General => []
  }

  /** `keywords.filter(keyword => message.includes(keyword)).length`. */
  function Matches(message: string, keywords: seq<string>): nat
  {
    |Filter(k => Contains(message, k), keywords)|
  }

  /** The keywords of a list without repetitions that occur in the message, as a set. */
  function Occurring(message: string, keywords: seq<string>): set<string>
  {
    set k | k in keywords && Contains(message, k)
  }

  /** Over a list without repetitions, the count is the number of distinct keywords occurring. */
  lemma MatchesAreDistinct(message: string, keywords: seq<string>)
    requires NoDups(keywords)
    ensures Matches(message, keywords) == |Occurring(message, keywords)|
  {
    var found := Filter(k => Contains(message, k), keywords);
    FilterNoDups(k => Contains(message, k), keywords);
    NoDupsSize(found);
    assert Elements(found) == Occurring(message, keywords);
  }

  /** None of the four keyword lists repeats a keyword. */
  lemma KeywordListsDistinct()
    ensures NoDups(AddKeywords) && NoDups(ModifyKeywords) && NoDups(FixKeywords) && NoDups(StyleKeywords)
  {
    forall i, j | 0 <= i < j < |AddKeywords|
      ensures AddKeywords[i] != AddKeywords[j]
    {
      assert AddKeywords[i][0] != AddKeywords[j][0] || AddKeywords[i][1] != AddKeywords[j][1]
             || |AddKeywords[i]| != |AddKeywords[j]|;
    }
    forall i, j | 0 <= i < j < |ModifyKeywords|
      ensures ModifyKeywords[i] != ModifyKeywords[j]
    {
      assert ModifyKeywords[i][0] != ModifyKeywords[j][0];
    }
    forall i, j | 0 <= i < j < |FixKeywords|
      ensures FixKeywords[i] != FixKeywords[j]
    {
      assert FixKeywords[i][0] != FixKeywords[j][0] || FixKeywords[i][1] != FixKeywords[j][1];
    }
    forall i, j | 0 <= i < j < |StyleKeywords|
      ensures StyleKeywords[i] != StyleKeywords[j]
    {
      assert StyleKeywords[i][0] != StyleKeywords[j][0] || StyleKeywords[i][1] != StyleKeywords[j][1];
    }
  }

  /** The four counts, in the order the `if`s try them. */
  datatype Counts = Counts(adding: nat, changing: nat, fixing: nat, styling: nat)

  /** The counts of each intent's keywords in the lowercased message. */
  function CountsOf(userMessage: string): Counts
  {
    var message := Lower(userMessage);
    Counts(Matches(message, AddKeywords), Matches(message, ModifyKeywords),
           Matches(message, FixKeywords), Matches(message, StyleKeywords))
  }

  function CountOf(counts: Counts, intent: Intent): nat
  {
    match intent
    case Add => counts.adding
    case Modify => counts.changing
    case Fix => counts.fixing
    case Style => counts.styling
    case General => 0
  }

  function Total(counts: Counts): nat
  {
    counts.adding + counts.changing + counts.fixing + counts.styling
  }

  /**
   * Each intent's count is the number of its distinct keywords occurring in
   * the lowercased message; `General` has none.
   */
  lemma CountsAreDistinctKeywords(userMessage: string, intent: Intent)
    ensures CountOf(CountsOf(userMessage), intent) == |Occurring(Lower(userMessage), KeywordsOf(intent))|
  {
    KeywordListsDistinct();
    if intent == General {
      assert Occurring(Lower(userMessage), []) == {};
    } else {
      MatchesAreDistinct(Lower(userMessage), KeywordsOf(intent));
    }
  }

  /** The order in which the `if`s try the intents. */
  function Rank(intent: Intent): nat
  {
    match intent
    case Add => 0
    case Modify => 1
    case Fix => 2
    case Style => 3
    case General => 4
  }

  /**
   * The primary intent: not `General`, of the greatest count, and every
   * intent tried before it of a smaller one.
   */
  predicate Primary(counts: Counts, intent: Intent)
  {
    && intent != General
    && (forall c :: CountOf(counts, c) <= CountOf(counts, intent))
    && (forall c :: Rank(c) < Rank(intent) ==> CountOf(counts, c) < CountOf(counts, intent))
  }

  datatype Detection = Detection(isFollowUp: bool, intent: Intent, confidence: real)

  /** `Math.min(totalMatches / 3, 1)`. */
  function Confidence(total: nat): (c: real)
    ensures total > 0 ==> 0.0 < c <= 1.0
    ensures total >= 3 ==> c == 1.0
    ensures total == 0 ==> c == 0.0
  {
    var ratio := total as real / 3.0;
    if ratio < 1.0 then ratio else 1.0
  }

  /**
   * What `detectFollowUpIntent` answers for given counts. Without a keyword
   * the message is no follow-up, of intent `General` and confidence 0.
   * Otherwise it is a follow-up of the primary intent, and its confidence is
   * the total over 3, capped at 1.
   */
  predicate Detects(counts: Counts, r: Detection)
  {
    && (r.isFollowUp <==> Total(counts) > 0)
    && (Total(counts) == 0 ==> r == Detection(false, General, 0.0))
    && (Total(counts) > 0 ==> Primary(counts, r.intent))
    && r.confidence == Confidence(Total(counts))
  }

  /** `detectFollowUpIntent`: the counts of the message, then the decision on them. */
  method DetectFollowUpIntent(userMessage: string) returns (r: Detection)
    ensures Detects(CountsOf(userMessage), r)
  {
    var counts := KeywordCounts(userMessage);
    r := DetectFromCounts(counts);
  }

  /** The early return without a keyword, the `if`s and the confidence. */
  method DetectFromCounts(counts: Counts) returns (r: Detection)
    ensures Detects(counts, r)
  {
    var totalMatches := counts.adding + counts.changing + counts.fixing + counts.styling;
    if totalMatches == 0 {
      return Detection(false, General, 0.0);
    }
    var intent := PrimaryIntent(counts);
    var confidence := Confidence(totalMatches);
    r := Detection(totalMatches > 0, intent, confidence);
  }

  /** The four `filter(…).length` counts over the lowercased message. */
  method KeywordCounts(userMessage: string) returns (counts: Counts)
    ensures counts == CountsOf(userMessage)
  {
    var message := Lower(userMessage);
    var addMatches := Matches(message, AddKeywords);
    var modifyMatches := Matches(message, ModifyKeywords);
    var fixMatches := Matches(message, FixKeywords);
    var styleMatches := Matches(message, StyleKeywords);
    counts := Counts(addMatches, modifyMatches, fixMatches, styleMatches);
  }

  /** The `if`s that update `intent` and `maxMatches`. */
  method PrimaryIntent(counts: Counts) returns (intent: Intent)
    requires Total(counts) > 0
    ensures Primary(counts, intent)
  {
    intent := General;
    var maxMatches := 0;
    if counts.adding > maxMatches {
      intent, maxMatches := Add, counts.adding;
    }
    if counts.changing > maxMatches {
      intent, maxMatches := Modify, counts.changing;
    }
    if counts.fixing > maxMatches {
      intent, maxMatches := Fix, counts.fixing;
    }
    if counts.styling > maxMatches {
      intent, maxMatches := Style, counts.styling;
    }
  }

  /** At most one intent is primary: the detected intent is determined by the counts. */
  lemma PrimaryUnique(counts: Counts, a: Intent, b: Intent)
    requires Primary(counts, a) && Primary(counts, b)
    ensures a == b
  {
    assert CountOf(counts, a) == CountOf(counts, b);
    assert Rank(a) == Rank(b);
  }

  // ----- Instructions -----

  /** The intent-specific blocks of `generateFollowUpInstructions`; their wording is not modelled beyond the first words. */
  datatype Task = AddTask | ModifyTask | FixTask | StyleTask | DefaultTask

  /** The `switch (intent)`: the four intent names, and the default branch for any other string. */
  function TaskFor(intent: string): (t: Task)
    ensures t == DefaultTask <==> intent !in ["add", "modify", "fix", "style"]
  {
    if intent == "add" then AddTask
    else if intent == "modify" then ModifyTask
    else if intent == "fix" then FixTask
    else if intent == "style" then StyleTask
    else DefaultTask
  }

  function TaskText(t: Task): string
  {
    match t
    case AddTask => "TASK: ADD the requested feature."
    case ModifyTask => "TASK: MODIFY the specified part."
    case FixTask => "TASK: FIX the reported issue."
    case StyleTask => "TASK: UPDATE the styling."
    case DefaultTask => "TASK: Address the user's request."
  }

  /** The opening every answer starts with, quoting the request. */
  function BaseInstructions(userRequest: string): string
  {
    "This is a follow-up request.\nUser Request: \"" + userRequest + "\"\n"
  }

  /** `generateFollowUpInstructions`: the opening, then the block of the intent. */
  function FollowUpInstructions(intent: string, userRequest: string): (r: string)
    ensures StartsWith(r, BaseInstructions(userRequest))
    ensures r[|BaseInstructions(userRequest)|..] == TaskText(TaskFor(intent))
  {
    var base := BaseInstructions(userRequest);
    assert (base + TaskText(TaskFor(intent)))[..|base|] == base;
    base + TaskText(TaskFor(intent))
  }

  /** The opening quotes the request, whatever follows it. */
  lemma OpeningQuotesRequest(userRequest: string, rest: string)
    ensures Contains(BaseInstructions(userRequest) + rest, userRequest)
  {
    var opening := "This is a follow-up request.\nUser Request: \"";
    var r := BaseInstructions(userRequest) + rest;
    var at := |opening|;
    assert r == opening + userRequest + ("\"\n" + rest);
    assert r[at..at + |userRequest|] == userRequest;
    ContainsAt(r, userRequest, at);
  }

  /** The instructions quote the user's request, whatever the intent. */
  lemma InstructionsQuoteRequest(intent: string, userRequest: string)
    ensures Contains(FollowUpInstructions(intent, userRequest), userRequest)
  {
    var rest := TaskText(TaskFor(intent));
    assert FollowUpInstructions(intent, userRequest) == BaseInstructions(userRequest) + rest;
    OpeningQuotesRequest(userRequest, rest);
  }

  /** The name the source gives an intent. */
  function IntentName(intent: Intent): string
  {
    match intent
    case Add => "add"
    case Modify => "modify"
    case Fix => "fix"
    case Style => "style"
    case General => "general"
  }

  /** A detected intent selects its own block; `general` takes the default branch. */
  lemma DetectedIntentTask(intent: Intent)
    ensures TaskFor(IntentName(intent)) == match intent
      case Add => AddTask
      case Modify => ModifyTask
      case Fix => FixTask
      case Style => StyleTask
      case General => DefaultTask
  {
  }
}
