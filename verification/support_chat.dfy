/** The support chat: a log of messages that starts with a welcome from
    the bot, a send box, five suggested questions with canned answers, and
    a responder that tries keyword groups in a fixed order. */
module SupportChat {
  import opened Lists
  import opened Text

  datatype Sender = User | Bot

  /** A chat message; its timestamp is not modelled. */
  datatype Message = Message(id: string, content: string, sender: Sender)

  datatype SuggestedQuestion = SuggestedQuestion(id: string, text: string)

  const SuggestedQuestions: seq<SuggestedQuestion> := [
    SuggestedQuestion("q1", "מה זה wedfull?"),
    SuggestedQuestion("q2", "איך מתחילים לתכנן חתונה?"),
    SuggestedQuestion("q3", "איך מנהלים את רשימת האורחים?"),
    SuggestedQuestion("q4", "איך מנהלים את התקציב?"),
    SuggestedQuestion("q5", "איך יוצרים סידורי הושבה?")
  ]

  /** The canned answers, one per suggested question. */
  datatype Answer = AboutWedfull | GettingStarted | GuestListHelp | BudgetHelp | SeatingHelp

  function AnswerText(answer: Answer): string {
    match answer
    case AboutWedfull => "wedfull הוא פלטפורמה מקיפה לתכנון חתונה שמאפשרת לך לנהל את כל ההיבטים של האירוע שלך במקום אחד - מרשימת אורחים ותקציב ועד ספקים וסידורי הושבה."
    case GettingStarted => "התחילו בהגדרת פרטי החתונה הבסיסיים כמו תאריך ומקום. לאחר מכן, הוסיפו את רשימת האורחים שלכם והתחילו לעקוב אחר התקציב. המערכת תיצור לכם רשימת משימות מומלצת לפי לוח הזמנים שלכם."
    case GuestListHelp => "בלשונית 'רשימת אורחים' תוכלו להוסיף אורחים, לסמן אישורי הגעה, להוסיף הערות מיוחדות ולייבא/לייצא את הרשימה לאקסל. המערכת מאפשרת גם לסנן ולחפש אורחים לפי קטגוריות שונות."
    case BudgetHelp => "בלשונית 'תקציב' תוכלו להגדיר את התקציב הכולל, להוסיף הוצאות לפי קטגוריות, לעקוב אחר תשלומים ומקדמות ולראות גרפים וניתוחים של ההוצאות שלכם."
    case SeatingHelp => "בלשונית 'סידורי הושבה' תוכלו ליצור שולחנות, להגדיר את מספר המקומות בכל שולחן ולגרור אורחים לשולחנות השונים. המערכת תתריע אם שולחן מלא מדי."
  }

  /** `faqResponses`: the answer stored under each question id. */
  const FaqResponses: map<string, Answer> := map[
    "q1" := AboutWedfull,
    "q2" := GettingStarted,
    "q3" := GuestListHelp,
    "q4" := BudgetHelp,
    "q5" := SeatingHelp
  ]

  /** The answer to a question id with no (or an empty) canned answer. */
  const NoAnswer: string := "אני לא יכול לענות על שאלה זו כרגע."

  /** The replies used when no keyword group matches. */
  const GeneralResponses: seq<string> := [
    "אנחנו כאן כדי לעזור לך לתכנן את החתונה המושלמת!",
    "אל תהססו לשאול כל שאלה לגבי תכנון החתונה שלכם.",
    "אם אתם מתקשים במשהו ספציפי, אשמח לעזור.",
    "יש לכם שאלות נוספות? אני כאן בשבילכם."
  ]

  /** The single message the log starts with. */
  const Welcome: Message := Message("welcome", "שלום! אני העוזר הווירטואלי של wedfull. איך אוכל לעזור לך היום?", Bot)

  /** The subjects `getResponse` recognises, in the order it tests them. */
  datatype Topic = Greeting | Thanks | Budget | Guests | Vendors | Date | Venue

  /** The canned reply for each subject. */
  function Reply(topic: Topic): string {
    match topic
    case Greeting => "שלום! איך אני יכול לעזור לך היום?"
    case Thanks => "בשמחה! אני כאן אם תצטרכו עוד עזרה."
    case Budget => "בלשונית 'תקציב' תוכלו לנהל את כל ההוצאות שלכם, להגדיר תקציב כולל ולעקוב אחר התשלומים והמקדמות."
    case Guests => "ניהול רשימת האורחים הוא פשוט! עברו ללשונית 'רשימת אורחים' כדי להוסיף, לערוך ולנהל את כל המוזמנים שלכם."
    case Vendors => "בלשונית 'ספקים' תוכלו לנהל את כל הספקים שלכם, לשמור פרטי קשר, לעקוב אחר תשלומים ולדרג את השירות."
    case Date => "בחירת תאריך היא אחת ההחלטות החשובות ביותר! בדקו זמינות של המקום והספקים המועדפים עליכם לפני שתקבעו תאריך סופי."
    case Venue => "בחירת מקום לאירוע היא החלטה משמעותית. מומלץ לבקר במספר מקומות, לבדוק זמינות לתאריך הרצוי ולוודא שהמקום מתאים לכמות האורחים המשוערת."
  }

  /** A keyword group: its subject is recognised when the lower-cased
      message contains any of the keywords. */
  datatype Rule = Rule(keywords: seq<string>, topic: Topic)

  /** The keyword groups in the order `getResponse` tries them. */
  const Rules: seq<Rule> := [
    Rule(["שלום", "היי"], Greeting),
    Rule(["תודה"], Thanks),
    Rule(["תקציב", "כסף", "עלות"], Budget),
    Rule(["אורח", "מוזמנ"], Guests),
    Rule(["ספק", "שירות"], Vendors),
    Rule(["תאריך", "מועד", "יום"], Date),
    Rule(["מקום", "אולם", "גן"], Venue)
  ]

  predicate RuleMatches(rule: Rule, lower: string) {
    exists k :: k in rule.keywords && Contains(lower, k)
  }

  /** The subject of the first group that matches, if any. */
  function FirstMatch(rules: seq<Rule>, lower: string): (r: Option<Topic>)
    ensures r.Some? ==> exists i :: 0 <= i < |rules| && RuleMatches(rules[i], lower) && r.value == rules[i].topic
  {
    if rules == [] then None
    else if RuleMatches(rules[0], lower) then Some(rules[0].topic)
    else
      var rest := FirstMatch(rules[1..], lower);
      if rest.Some? then
        var i :| 0 <= i < |rules[1..]| && RuleMatches(rules[1..][i], lower) && rest.value == rules[1..][i].topic;
        assert rules[i + 1] == rules[1..][i];
        rest
      else rest
  }

  /** The group at `i` answers when it matches and no earlier group does. */
  lemma {:induction false} FirstMatchIsFirst(rules: seq<Rule>, lower: string, i: nat)
    requires i < |rules| && RuleMatches(rules[i], lower)
    requires forall j :: 0 <= j < i ==> !RuleMatches(rules[j], lower)
    ensures FirstMatch(rules, lower) == Some(rules[i].topic)
  {
    if i > 0 {
      assert !RuleMatches(rules[0], lower);
      forall j | 0 <= j < i - 1 ensures !RuleMatches(rules[1..][j], lower) {
        assert rules[1..][j] == rules[j + 1];
      }
      FirstMatchIsFirst(rules[1..], lower, i - 1);
    }
  }

  /** When no group matches there is no keyword reply. */
  lemma {:induction false} NoMatchNoReply(rules: seq<Rule>, lower: string)
    requires forall i :: 0 <= i < |rules| ==> !RuleMatches(rules[i], lower)
    ensures FirstMatch(rules, lower) == None
  {
    if rules != [] {
      assert !RuleMatches(rules[0], lower);
      forall j | 0 <= j < |rules[1..]| ensures !RuleMatches(rules[1..][j], lower) {
        assert rules[1..][j] == rules[j + 1];
      }
      NoMatchNoReply(rules[1..], lower);
    }
  }

  /** `getResponse`: the keyword reply of the first group the lower-cased
      message matches, otherwise the general response `pick` (the index
      the random draw produced). */
  function GetResponse(message: string, pick: nat): (r: string)
    requires pick < |GeneralResponses|
    ensures r in GeneralResponses || exists i :: 0 <= i < |Rules| && RuleMatches(Rules[i], Lower(message)) && r == Reply(Rules[i].topic)
  {
    var topic := FirstMatch(Rules, Lower(message));
    if topic.Some? then Reply(topic.value) else GeneralResponses[pick]
  }

  /** A message that matches no group gets one of the general responses,
      the one the draw picked. */
  lemma DefaultReply(message: string, pick: nat)
    requires pick < |GeneralResponses|
    requires forall i :: 0 <= i < |Rules| ==> !RuleMatches(Rules[i], Lower(message))
    ensures GetResponse(message, pick) == GeneralResponses[pick]
  {
    NoMatchNoReply(Rules, Lower(message));
  }

  /** A message with "תודה" and no greeting gets the thanks reply, even
      when it also mentions the budget. */
  lemma ThanksBeatsBudget(message: string, pick: nat)
    requires pick < |GeneralResponses|
    requires Contains(Lower(message), "תודה")
    requires !Contains(Lower(message), "שלום") && !Contains(Lower(message), "היי")
    ensures GetResponse(message, pick) == Reply(Thanks)
  {
    var lower := Lower(message);
    assert FirstMatch(Rules, lower) == Some(Thanks) by {
      assert RuleMatches(Rules[1], lower) by {
        assert "תודה" in Rules[1].keywords;
      }
      assert !RuleMatches(Rules[0], lower);
      FirstMatchIsFirst(Rules, lower, 1);
    }
  }

  /** A greeting wins over every other group. */
  lemma GreetingFirst(message: string, pick: nat)
    requires pick < |GeneralResponses|
    requires Contains(Lower(message), "שלום") || Contains(Lower(message), "היי")
    ensures GetResponse(message, pick) == Reply(Greeting)
  {
    var lower := Lower(message);
    if Contains(lower, "שלום") {
      assert "שלום" in Rules[0].keywords;
    } else {
      assert "היי" in Rules[0].keywords;
    }
    FirstMatchIsFirst(Rules, lower, 0);
  }

  /** `toLowerCase` leaves a string without ASCII capitals as it is. */
  lemma LowerKeeps(s: string)
    requires forall i :: 0 <= i < |s| ==> !('A' <= s[i] <= 'Z')
    ensures Lower(s) == s
  {
  }

  /** "תקציב? תודה" names both the budget and the thanks keywords and is
      answered with thanks. */
  lemma ThanksForTheBudget(m: string, pick: nat)
    requires m == "תקציב? תודה" && pick < |GeneralResponses|
    ensures GetResponse(m, pick) == Reply(Thanks)
  {
    assert Lower(m) == m by { LowerKeeps(m); }
    assert Contains(m, "תודה") by {
      assert m[7..] == "תודה";
      ContainsAt(m, "תודה", 7);
    }
    assert !Contains(m, "היי") by { NotContainsWithoutFirst(m, "היי"); }
    assert !Contains(m, "שלום") by { NotContainsWithoutFirst(m, "שלום"); }
    ThanksBeatsBudget(m, pick);
  }

  /** `suggestedQuestions.find`: the first question with the id. */
  function FindQuestion(qs: seq<SuggestedQuestion>, id: string): (r: Option<SuggestedQuestion>)
    ensures r.Some? ==> r.value in qs && r.value.id == id
    ensures r.None? ==> forall q :: q in qs ==> q.id != id
  {
    if qs == [] then None
    else if qs[0].id == id then Some(qs[0])
    else FindQuestion(qs[1..], id)
  }

  /** `faqResponses[id] || fallback`. */
  function FaqAnswer(id: string): (r: string)
    ensures r == NoAnswer || (id in FaqResponses && r == AnswerText(FaqResponses[id]))
    ensures id in FaqResponses && AnswerText(FaqResponses[id]) != "" ==> r == AnswerText(FaqResponses[id])
  {
    if id in FaqResponses && AnswerText(FaqResponses[id]) != "" then AnswerText(FaqResponses[id]) else NoAnswer
  }

  /** Every suggested question has an entry among the canned answers. */
  lemma SuggestedQuestionsAnswered(q: SuggestedQuestion)
    requires q in SuggestedQuestions
    ensures q.id in FaqResponses
  {
  }

  /** What a send appends: nothing for blank input, otherwise the input
      as the user's message (untrimmed) followed by the bot's reply to it. */
  function SendExchange(input: string, userId: string, botId: string, pick: nat): (r: seq<Message>)
    requires pick < |GeneralResponses|
    ensures r == [] <==> IsBlank(input)
    ensures r != [] ==> |r| == 2 && r[0] == Message(userId, input, User)
                        && r[1].sender == Bot && r[1].content == GetResponse(input, pick)
  {
    if IsBlank(input) then [] else [Message(userId, input, User), Message(botId, GetResponse(input, pick), Bot)]
  }

  /** What a click on a question appends: nothing for an unknown id,
      otherwise the question's text as the user's message followed by its
      canned answer. */
  function QuestionExchange(questionId: string, userId: string, botId: string): (r: seq<Message>)
    ensures r == [] <==> forall q :: q in SuggestedQuestions ==> q.id != questionId
    ensures r != [] ==> exists q :: q in SuggestedQuestions && q.id == questionId &&
                          q.id in FaqResponses &&
                          r == [Message(userId, q.text, User), Message(botId, FaqAnswer(questionId), Bot)]
  {
    var question := FindQuestion(SuggestedQuestions, questionId);
    if question.None? then []
    else
      [Message(userId, question.value.text, User), Message(botId, FaqAnswer(questionId), Bot)]
  }

  /** The chat's state: the message log and the send box. Every handler
      only appends to the log, which starts with the welcome message. */
  class Chat {
    var messages: seq<Message>
    var inputValue: string

    constructor ()
      ensures messages == [Welcome] && inputValue == ""
    {
      messages := [Welcome];
      inputValue := "";
    }

    /** Typing into the send box. */
    method SetInput(value: string)
      modifies this`inputValue
      ensures inputValue == value
    {
      inputValue := value;
    }

    /** `handleSend`: blank input changes nothing; otherwise the user's
        message is appended, the box is cleared and the bot's reply to
        that input follows (immediately here, after a delay in the page). */
    method HandleSend(userId: string, botId: string, pick: nat)
      requires pick < |GeneralResponses|
      modifies this`messages, this`inputValue
      ensures messages == old(messages) + SendExchange(old(inputValue), userId, botId, pick)
      ensures inputValue == if IsBlank(old(inputValue)) then old(inputValue) else ""
    {
      if IsBlank(inputValue) {
        return;
      }
      var sent := inputValue;
      messages := messages + [Message(userId, sent, User)];
      inputValue := "";
      messages := messages + [Message(botId, GetResponse(sent, pick), Bot)];
    }

    /** `handleQuestionClick`. */
    method HandleQuestionClick(questionId: string, userId: string, botId: string)
      modifies this`messages
      ensures messages == old(messages) + QuestionExchange(questionId, userId, botId)
    {
      var question := FindQuestion(SuggestedQuestions, questionId);
      if question.None? {
        return;
      }
      messages := messages + [Message(userId, question.value.text, User)];
      messages := messages + [Message(botId, FaqAnswer(questionId), Bot)];
    }
  }
}
