/** The local rule-based chat responder used when the AI endpoint is not
    available: the lower-cased message is tested for keywords, topic by topic,
    in a fixed order, and the first topic with a hit decides the reply.
    Keywords are raw substrings, so "hi" also fires inside "this" or "high". */
module Chatbot {
  import opened Text

  datatype Topic = Greeting | Help | Fever | Headache | Cold | Stomach | Unknown

  datatype Rule = Rule(topic: Topic, keywords: seq<string>)

  /** The rules in the order they are tried. */
  const Rules: seq<Rule> := [
    Rule(Greeting, ["hello", "hi", "hey"]),
    Rule(Help, ["help", "what can you do"]),
    Rule(Fever, ["fever", "temperature"]),
    Rule(Headache, ["headache", "head hurts"]),
    Rule(Cold, ["cold", "flu", "cough"]),
    Rule(Stomach, ["stomach", "belly", "nausea"])
  ]

  predicate MentionsAny(lowered: string, keywords: seq<string>) {
    exists k | k in keywords :: Contains(lowered, k)
  }

  /** Rule `k` fires on the message and no earlier rule does. */
  ghost predicate FirstFiring(lowered: string, k: int) {
    && 0 <= k < |Rules|
    && MentionsAny(lowered, Rules[k].keywords)
    && forall j :: 0 <= j < k ==> !MentionsAny(lowered, Rules[j].keywords)
  }

  /** Each rule of the table fires exactly when one of its keywords is a substring. */
  lemma RulesSpelledOut(m: string)
    ensures MentionsAny(m, Rules[0].keywords) <==> Contains(m, "hello") || Contains(m, "hi") || Contains(m, "hey")
    ensures MentionsAny(m, Rules[1].keywords) <==> Contains(m, "help") || Contains(m, "what can you do")
    ensures MentionsAny(m, Rules[2].keywords) <==> Contains(m, "fever") || Contains(m, "temperature")
    ensures MentionsAny(m, Rules[3].keywords) <==> Contains(m, "headache") || Contains(m, "head hurts")
    ensures MentionsAny(m, Rules[4].keywords) <==> Contains(m, "cold") || Contains(m, "flu") || Contains(m, "cough")
    ensures MentionsAny(m, Rules[5].keywords) <==> Contains(m, "stomach") || Contains(m, "belly") || Contains(m, "nausea")
  {
  }

  /** The topic the message is answered on. */
  function Classify(message: string): (t: Topic)
    ensures t == Unknown <==> forall k :: 0 <= k < |Rules| ==> !MentionsAny(Lower(message), Rules[k].keywords)
    ensures forall k :: FirstFiring(Lower(message), k) ==> t == Rules[k].topic
  {
    var m := Lower(message);
    RulesSpelledOut(m);
    if Contains(m, "hello") || Contains(m, "hi") || Contains(m, "hey") then Greeting
    else if Contains(m, "help") || Contains(m, "what can you do") then Help
    else if Contains(m, "fever") || Contains(m, "temperature") then Fever
    else if Contains(m, "headache") || Contains(m, "head hurts") then Headache
    else if Contains(m, "cold") || Contains(m, "flu") || Contains(m, "cough") then Cold
    else if Contains(m, "stomach") || Contains(m, "belly") || Contains(m, "nausea") then Stomach
    else Unknown
  }

  const Greeting1 := "Hello! How can I assist you today?"
  const Greeting2 := "Hi there! What can I help you with?"
  const Greeting3 := "Welcome! How can I help with your health concerns?"
  const Help1 := "I can provide general health information, suggest home remedies for minor issues, and guide you on when to see a doctor. Please remember I'm not a substitute for professional medical advice."
  const Help2 := "I'm here to help with health-related questions. What would you like to know?"
  const FeverAdvice := "For fever, rest and drink plenty of fluids. You can take acetaminophen or ibuprofen to reduce fever. If your temperature is above 103\U{C2}\U{B0}F (39.4\U{C2}\U{B0}C) or lasts more than 3 days, please consult a doctor."
  const HeadacheAdvice := "For headaches, try resting in a quiet, dark room, applying a cool compress, and staying hydrated. Over-the-counter pain relievers may help. If headaches are severe or persistent, please see a doctor."
  const ColdAdvice := "For a common cold, get plenty of rest, drink fluids, and consider over-the-counter cold medications. If symptoms persist beyond 10 days or worsen, consult a healthcare provider."
  const StomachAdvice := "For mild stomachaches, try drinking clear fluids, eating bland foods, and avoiding dairy, caffeine, and fatty foods. If pain is severe or persists, seek medical attention."
  const Default1 := "I'm sorry, I'm not sure how to help with that. For medical concerns, it's always best to consult with a healthcare professional."
  const Default2 := "I don't have enough information about that. Please contact a doctor for specific medical advice."

  /** The canned replies per topic: several exactly for the topics whose
      reply is drawn at random, one for each symptom topic. */
  function Replies(t: Topic): (r: seq<string>)
    ensures |r| >= 1
    ensures |r| > 1 <==> RandomTopic(t)
  {
    match t
    case Greeting => [Greeting1, Greeting2, Greeting3]
    case Help => [Help1, Help2]
    case Fever => [FeverAdvice]
    case Headache => [HeadacheAdvice]
    case Cold => [ColdAdvice]
    case Stomach => [StomachAdvice]
    case Unknown => [Default1, Default2]
  }

  /** Topics whose reply is drawn at random rather than fixed. */
  predicate RandomTopic(t: Topic) {
    t == Greeting || t == Help || t == Unknown
  }

  /** The reply. `choice` stands for the random draw; it selects among the
      topic's replies for greeting, help and the default, and is ignored for
      the four symptom topics, which always give their first reply. */
  function GetBotResponse(message: string, choice: nat): (r: string)
    ensures r in Replies(Classify(message))
    ensures !RandomTopic(Classify(message)) ==> r == Replies(Classify(message))[0]
  {
    var t := Classify(message);
    var replies := Replies(t);
    if RandomTopic(t) then replies[choice % |replies|] else replies[0]
  }

  /** Every reply of a random topic can be drawn. */
  lemma EveryReplyReachable(message: string, i: nat)
    requires RandomTopic(Classify(message))
    requires i < |Replies(Classify(message))|
    ensures exists choice: nat :: GetBotResponse(message, choice) == Replies(Classify(message))[i]
  {
    var t := Classify(message);
    assert i % |Replies(t)| == i;
    assert GetBotResponse(message, i) == Replies(t)[i];
  }

  /** "chills" is a greeting: it contains "hi". */
  lemma ChillsIsGreeting()
    ensures Classify("I have chills") == Greeting
  {
    assert OccursAt(Lower("I have chills"), "hi", 8);
  }

  /** "a high fever" is a greeting too: "high" contains "hi", and the greeting
      rule comes before the fever rule. */
  lemma HighFeverIsGreeting()
    ensures Classify("I have a HIGH fever") == Greeting
  {
    assert OccursAt(Lower("I have a HIGH fever"), "hi", 9);
  }

  /** A bare "Fever" is answered on fever with the fixed fever advice. */
  lemma FeverAlone(choice: nat)
    ensures Classify("Fever") == Fever
    ensures GetBotResponse("Fever", choice) == Replies(Fever)[0]
  {
    var m := Lower("Fever");
    assert m == "fever";
    NotContainsWithoutFirstChar(m, "hello");
    NotContainsWithoutFirstChar(m, "hi");
    NotContainsWithoutFirstChar(m, "hey");
    NotContainsWithoutFirstChar(m, "help");
    NotContainsWithoutFirstChar(m, "what can you do");
    ContainsSelf(m);
  }
}
