/**
 * The keyword-matching dialogue agent (tast.py): an Agent remembers what it
 * perceives, classifies its latest observation into one of six action labels by
 * a fixed priority of substring tests, and answers through a table of handlers;
 * an Environment registers agents by name and routes input to them.
 *
 * random.choice is modelled by a caller-supplied index `choice`, taken modulo the
 * number of candidate replies; printing is left out.
 */
module KeywordAgent {
  import opened Wrappers
  import opened Text

  // ---------------------------------------------------------------------------
  // Labels and keywords
  // ---------------------------------------------------------------------------

  const StateName: string := "state_name"
  const AnswerFact: string := "answer_fact"
  const AnswerMath: string := "answer_math"
  const Greet: string := "greet"
  const AcknowledgeThanks: string := "acknowledge_thanks"
  const ContinueConversation: string := "continue_conversation"

  /** The six labels think can return. */
  const Labels: set<string> := {StateName, AnswerFact, AnswerMath, Greet, AcknowledgeThanks, ContinueConversation}

  /** Questions about the agent's name. */
  const NamePhrases: seq<string> := ["নাম কি", "কে তুমি", "তোমার নাম"]
  /** Words that ask for a fact: capital, currency, population. */
  const FactKeywords: seq<string> := ["রাজধানী", "মুদ্রা", "জনসংখ্যা"]
  /** Signs of an arithmetic question: plus, "and", "add", "how much". */
  const MathOperators: seq<string> := ["+", "ও", "যোগ", "কতো"]
  /** Greetings: hello, hi, how are you. */
  const Greetings: seq<string> := ["হ্যালো", "হাই", "কেমন আছ"]
  /** "Thank you". */
  const ThanksWord: string := "ধন্যবাদ"

  /** Python's any(k in s for k in keys). */
  predicate MentionsAny(s: string, keys: seq<string>) {
    exists i | 0 <= i < |keys| :: Contains(s, keys[i])
  }

  /**
   * think's decision for an observation: the chain of substring tests on the
   * lowered text, name questions first, then facts, arithmetic, greetings and
   * thanks, with continue_conversation when nothing matches.
   */
  function Classify(observation: string): (decision: string)
    ensures decision in Labels
  {
    var lowered := Lower(observation);
    if MentionsAny(lowered, NamePhrases) then StateName
    else if MentionsAny(lowered, FactKeywords) then AnswerFact
    else if MentionsAny(lowered, MathOperators) then AnswerMath
    else if MentionsAny(lowered, Greetings) then Greet
    else if Contains(lowered, ThanksWord) then AcknowledgeThanks
    else ContinueConversation
  }

  /**
   * The priority order of the tests, label by label and in both directions: a
   * name question wins over everything, facts over arithmetic, arithmetic over
   * greetings, greetings over thanks.
   */
  lemma ClassifyPriority(observation: string)
    ensures var o := Lower(observation);
      && (Classify(observation) == StateName <==> MentionsAny(o, NamePhrases))
      && (Classify(observation) == AnswerFact <==>
            !MentionsAny(o, NamePhrases) && MentionsAny(o, FactKeywords))
      && (Classify(observation) == AnswerMath <==>
            !MentionsAny(o, NamePhrases) && !MentionsAny(o, FactKeywords) && MentionsAny(o, MathOperators))
      && (Classify(observation) == Greet <==>
            !MentionsAny(o, NamePhrases) && !MentionsAny(o, FactKeywords) && !MentionsAny(o, MathOperators) &&
            MentionsAny(o, Greetings))
      && (Classify(observation) == AcknowledgeThanks <==>
            !MentionsAny(o, NamePhrases) && !MentionsAny(o, FactKeywords) && !MentionsAny(o, MathOperators) &&
            !MentionsAny(o, Greetings) && Contains(o, ThanksWord))
  {
  }

  /** Every keyword think tests is free of ASCII letters. */
  lemma KeywordsAreCaseless()
    ensures forall i | 0 <= i < |NamePhrases| :: Caseless(NamePhrases[i])
    ensures forall i | 0 <= i < |FactKeywords| :: Caseless(FactKeywords[i])
    ensures forall i | 0 <= i < |MathOperators| :: Caseless(MathOperators[i])
    ensures forall i | 0 <= i < |Greetings| :: Caseless(Greetings[i])
    ensures Caseless(ThanksWord)
  {
  }

  lemma MentionsIgnoreLower(s: string, keys: seq<string>)
    requires forall i | 0 <= i < |keys| :: Caseless(keys[i])
    ensures MentionsAny(Lower(s), keys) <==> MentionsAny(s, keys)
  {
    forall i | 0 <= i < |keys|
      ensures Contains(Lower(s), keys[i]) <==> Contains(s, keys[i])
    {
      CaselessMatchIgnoresLower(s, keys[i]);
    }
  }

  /**
   * Since no keyword has an ASCII letter, the lowering in think never changes a
   * test's outcome: classifying the raw text gives the same label.
   */
  lemma LoweringIsImmaterial(observation: string)
    ensures var o := observation;
      Classify(observation) ==
        if MentionsAny(o, NamePhrases) then StateName
        else if MentionsAny(o, FactKeywords) then AnswerFact
        else if MentionsAny(o, MathOperators) then AnswerMath
        else if MentionsAny(o, Greetings) then Greet
        else if Contains(o, ThanksWord) then AcknowledgeThanks
        else ContinueConversation
  {
    KeywordsAreCaseless();
    MentionsIgnoreLower(observation, NamePhrases);
    MentionsIgnoreLower(observation, FactKeywords);
    MentionsIgnoreLower(observation, MathOperators);
    MentionsIgnoreLower(observation, Greetings);
    CaselessMatchIgnoresLower(observation, ThanksWord);
  }

  // ---------------------------------------------------------------------------
  // Knowledge and replies
  // ---------------------------------------------------------------------------

  /**
   * The parts of knowledge_base the handlers read: general's name, creator and
   * status, and the facts and math dictionaries as (key, value) lists in
   * insertion order, the order in which Python iterates a dict.
   */
  datatype Knowledge = Knowledge(
    name: string, creator: string, status: string,
    facts: seq<(string, string)>, math: seq<(string, string)>)

  /** The knowledge base an agent gets when none (or an empty one) is given. */
  const DefaultKnowledge: Knowledge := Knowledge(
    "সহায়ক", "আপনি", "আমি ভাল আছি, ধন্যবাদ!",
    [("বাংলাদেশের রাজধানী", "ঢাকা"),
     ("ভারতের রাজধানী", "নয়াদিল্লী"),
     ("বাংলাদেশের মুদ্রা", "টাকা"),
     ("ভারতের মুদ্রা", "রুপি"),
     ("এক ও এক", "২ (দুই)")],
    [("এক ও এক", "২ (দুই)"),
     ("দুই ও দুই", "৪ (চার)")])

  const FactUnknownReply: string := "আমি সেই তথ্যটি জানি না। আপনি অন্য কিছু জানতে চান?"
  const MathUnknownReply: string := "আমি সেই গাণিতিক সমস্যাটির সমাধান জানি না।"
  const ThanksReply: string := "আপনাকে ধন্যবাদ! আর কিছু জানার থাকলে আমাকে বলুন।"
  const UnknownReply: string := "আমি নিশ্চিত না যে আপনি কি বলতে চাচ্ছেন। দয়া করে পরিষ্কার করে বলুন।"
  const AgentNotFound: string := "এজেন্ট খুঁজে পাওয়া যায়নি"

  /** The three greetings _handle_greet chooses from. */
  function GreetReplies(k: Knowledge): seq<string> {
    ["হ্যালো! আমি " + k.name + ", কিভাবে আপনাকে সাহায্য করতে পারি?",
     k.status + " আপনি কিভাবে আছেন?",
     "শুভেচ্ছা! আমি আপনার সহায়তার জন্য এখানে আছি।"]
  }

  /** The three prompts _handle_continue_conversation chooses from. */
  const ContinuePrompts: seq<string> := [
    "আপনি আরও কিছু বলতে চান?",
    "আমি আপনাকে কিভাবে আরও সাহায্য করতে পারি?",
    "আপনার কি অন্য কোন প্রশ্ন আছে?"]

  /**
   * The early-return loop of the fact and math handlers: the index of the first
   * entry, in table order, whose lowered key occurs in the lowered question.
   */
  function FirstMatch(table: seq<(string, string)>, question: string): (r: Option<nat>)
    ensures r.Some? ==> r.value < |table| && Contains(Lower(question), Lower(table[r.value].0))
    ensures r.Some? ==> forall j | 0 <= j < r.value :: !Contains(Lower(question), Lower(table[j].0))
    ensures r.None? <==> forall j | 0 <= j < |table| :: !Contains(Lower(question), Lower(table[j].0))
    decreases |table|
  {
    if table == [] then None
    else if Contains(Lower(question), Lower(table[0].0)) then Some(0)
    else match FirstMatch(table[1..], question)
      case None => None
      case Some(i) => Some(i + 1)
  }

  /**
   * The math handler lowers the question once before its loop (tast.py line 86)
   * and the fact handler inside it (line 80); since lowering twice is lowering
   * once, both compute the same match, which FirstMatch on the raw question gives.
   */
  lemma {:induction false} FirstMatchLoweredQuestion(table: seq<(string, string)>, question: string)
    ensures FirstMatch(table, Lower(question)) == FirstMatch(table, question)
    decreases |table|
  {
    LowerIdempotent(question);
    if table != [] {
      FirstMatchLoweredQuestion(table[1..], question);
    }
  }

  /** The handlers of act's table, and the fallback. */
  datatype Handler = GreetHandler | FactHandler | MathHandler | ThanksHandler | ContinueHandler | NameHandler | UnknownHandler

  /** act's action_handlers dictionary. */
  const ActionHandlers: map<string, Handler> := map[
    Greet := GreetHandler,
    AnswerFact := FactHandler,
    AnswerMath := MathHandler,
    AcknowledgeThanks := ThanksHandler,
    ContinueConversation := ContinueHandler,
    StateName := NameHandler]

  /** action_handlers.get(action, _handle_unknown). */
  function HandlerFor(action: string): Handler {
    if action in ActionHandlers then ActionHandlers[action] else UnknownHandler
  }

  /** The table has a handler for exactly the six labels, so every decision of think has one. */
  lemma HandlersCoverLabels(observation: string)
    ensures ActionHandlers.Keys == Labels
    ensures HandlerFor(Classify(observation)) != UnknownHandler
  {
  }

  // ---------------------------------------------------------------------------
  // The agent
  // ---------------------------------------------------------------------------

  /**
   * An entry of the agent's memory: the first one is the knowledge_base argument
   * itself (None or a dict, not a string); the rest are perceived strings.
   */
  datatype Memo = Seed | Observation(text: string)

  class Agent {
    const name: string
    const knowledge: Knowledge
    var memory: seq<Memo>

    /** Memory starts with the seed entry and only grows at the end. */
    ghost predicate Valid()
      reads this
    {
      |memory| >= 1 && memory[0] == Seed
    }

    /** __init__: given is None for a missing or empty knowledge_base, which selects the default. */
    constructor (name: string, given: Option<Knowledge>)
      ensures Valid()
      ensures this.name == name
      ensures knowledge == if given.Some? then given.value else DefaultKnowledge
      ensures memory == [Seed]
    {
      this.name := name;
      knowledge := if given.Some? then given.value else DefaultKnowledge;
      memory := [Seed];
    }

    /** The latest memory entry is a perceived string, so `.lower()` applies to it. */
    predicate LatestIsObservation()
      reads this
    {
      |memory| > 0 && memory[|memory| - 1].Observation?
    }

    function Latest(): string
      reads this
      requires LatestIsObservation()
    {
      memory[|memory| - 1].text
    }

    /** perceive: the observation becomes the new last memory entry; the earlier entries stay. */
    method Perceive(observation: string)
      modifies this`memory
      ensures old(Valid()) ==> Valid()
      ensures memory == old(memory) + [Observation(observation)]
      ensures LatestIsObservation() && Latest() == observation
    {
      memory := memory + [Observation(observation)];
    }

    /**
     * think: None exactly for an empty memory, otherwise the label Classify
     * gives the latest observation. (Python raises when the latest entry is the
     * seed; the requires keeps that case out.)
     */
    function Think(): (action: Option<string>)
      reads this
      requires memory == [] || LatestIsObservation()
      ensures action.None? <==> memory == []
      ensures action.Some? ==> action.value in Labels && action.value == Classify(Latest())
    {
      if memory == [] then None else Some(Classify(Latest()))
    }

    /**
     * An agent's memory is never empty, since it starts with the seed entry; so
     * once something was perceived think's None branch cannot be taken.
     */
    lemma ThinkAlwaysDecides()
      requires Valid()
      ensures memory != []
      ensures LatestIsObservation() ==> Think().Some? && Think().value == Classify(Latest())
    {
    }

    /** _handle_answer_fact: the first known fact named in the question, or the fallback. */
    function FactReply(): (reply: string)
      reads this
      requires LatestIsObservation()
      ensures match FirstMatch(knowledge.facts, Latest())
        case Some(i) => reply == knowledge.facts[i].0 + " হল " + knowledge.facts[i].1
        case None => reply == FactUnknownReply
    {
      match FirstMatch(knowledge.facts, Latest())
      case Some(i) => knowledge.facts[i].0 + " হল " + knowledge.facts[i].1
      case None => FactUnknownReply
    }

    /**
     * With the default knowledge, a question that names the capital of
     * Bangladesh verbatim is answered with it: the key has no ASCII letter, so
     * its lowered form is itself and lowering the question cannot hide it.
     */
    lemma DefaultCapitalAnswer()
      requires knowledge == DefaultKnowledge && LatestIsObservation()
      requires Contains(Latest(), "বাংলাদেশের রাজধানী")
      ensures FactReply() == "বাংলাদেশের রাজধানী হল ঢাকা"
    {
      var key := DefaultKnowledge.facts[0].0;
      assert Caseless(key);
      CaselessIsLower(key);
      CaselessMatchIgnoresLower(Latest(), key);
    }

    /** _handle_answer_math: the first known problem named in the question, or the fallback. */
    function MathReply(): (reply: string)
      reads this
      requires LatestIsObservation()
      ensures match FirstMatch(knowledge.math, Latest())
        case Some(i) => reply == knowledge.math[i].0 + " এর উত্তর হল " + knowledge.math[i].1
        case None => reply == MathUnknownReply
    {
      match FirstMatch(knowledge.math, Latest())
      case Some(i) => knowledge.math[i].0 + " এর উত্তর হল " + knowledge.math[i].1
      case None => MathUnknownReply
    }

    /** One handler's reply; `choice` stands for random.choice's pick. */
    function Run(h: Handler, choice: nat): string
      reads this
      requires h == FactHandler || h == MathHandler ==> LatestIsObservation()
    {
      match h
      case GreetHandler => GreetReplies(knowledge)[choice % 3]
      case FactHandler => FactReply()
      case MathHandler => MathReply()
      case ThanksHandler => ThanksReply
      case ContinueHandler => ContinuePrompts[choice % 3]
      case NameHandler => "আমার নাম " + knowledge.name
      case UnknownHandler => UnknownReply
    }

    /** act: dispatch through the handler table, falling back to the unknown handler. */
    function Act(action: string, choice: nat): (reply: string)
      reads this
      requires action == AnswerFact || action == AnswerMath ==> LatestIsObservation()
      ensures action !in Labels ==> reply == UnknownReply
      ensures action == Greet ==> reply in GreetReplies(knowledge)
      ensures action == ContinueConversation ==> reply in ContinuePrompts
      ensures action == StateName ==> reply == "আমার নাম " + knowledge.name
      ensures action == AcknowledgeThanks ==> reply == ThanksReply
      ensures action == AnswerFact ==> reply == FactReply()
      ensures action == AnswerMath ==> reply == MathReply()
    {
      Run(HandlerFor(action), choice)
    }
  }

  // ---------------------------------------------------------------------------
  // The environment
  // ---------------------------------------------------------------------------

  class Environment {
    var agents: map<string, Agent>

    /** Every agent is registered under its own name, so distinct names hold distinct agents. */
    ghost predicate Valid()
      reads this
    {
      forall n | n in agents :: agents[n].name == n
    }

    constructor ()
      ensures Valid() && agents == map[]
    {
      agents := map[];
    }

    /** add_agent: registers the agent under its name, replacing any agent of that name. */
    method AddAgent(agent: Agent)
      requires Valid()
      modifies this
      ensures Valid()
      ensures agents == old(agents)[agent.name := agent]
    {
      agents := agents[agent.name := agent];
    }

    /**
     * interact: for an unknown name the fixed error and no change; otherwise the
     * agent perceives the input, which grows its memory by exactly that entry,
     * and replies to it. No other agent's memory changes.
     */
    method Interact(agentName: string, input: string, choice: nat) returns (response: string)
      requires Valid()
      modifies if agentName in agents then {agents[agentName]} else {}
      ensures agentName !in agents ==> response == AgentNotFound
      ensures forall n | n in agents && n != agentName :: agents[n].memory == old(agents[n].memory)
      ensures agentName in agents ==>
        var a := agents[agentName];
        a.memory == old(a.memory) + [Observation(input)] &&
        response == a.Act(Classify(input), choice)
    {
      if agentName !in agents {
        return AgentNotFound;
      }
      var agent := agents[agentName];
      agent.Perceive(input);
      var action := agent.Think();
      response := agent.Act(action.value, choice);
    }
  }
}
