/** The AI chat section: previous questions, the input box, the "Surprise Me" and community
    prompts, and the daily-ask quest that a first sent question completes. */
module ChatSectionAI {
  import opened Strings

  const SurprisePrompts: seq<string> := [
    "What's one product that drives the most repeat purchases?",
    "Which traffic source brings the highest-converting customers?",
    "Is there a discount code that's hurting profitability?",
    "What's one quick win to reduce cart abandonment?",
    "How can I increase average order value this week?"
  ]

  const CommunityQuestions: seq<string> := [
    "What product got the most abandoned carts last month?",
    "What was the best-performing ad this quarter?",
    "Which customer segment has the highest lifetime value?"
  ]

  /** The questions already in the history when the page loads. */
  const InitialHistory: seq<string> := [
    "What are my top 3 returning products?",
    "Which product has the best profit margin?",
    "When do most people abandon their carts?"
  ]

  /** `!input.trim()`: the input is empty or only whitespace. */
  predicate IsBlank(input: string) {
    Trim(input) == []
  }

  /** A history starts with the three initial questions and every later entry holds a
      character other than whitespace, so it is not blank. */
  ghost predicate ValidHistory(h: seq<string>) {
    && |InitialHistory| <= |h|
    && h[..|InitialHistory|] == InitialHistory
    && forall i :: |InitialHistory| <= i < |h| ==> !AllWhitespace(h[i])
  }

  /** Appending a non-blank question keeps a history valid. */
  lemma AppendKeepsHistoryValid(h: seq<string>, x: string)
    requires ValidHistory(h) && !IsBlank(x)
    ensures ValidHistory(h + [x])
  {
    TrimEmptyIffAllWhitespace(x);
    var h' := h + [x];
    assert h'[..|InitialHistory|] == h[..|InitialHistory|];
    forall i | |InitialHistory| <= i < |h'|
      ensures !AllWhitespace(h'[i])
    {
      if i < |h| {
        assert h'[i] == h[i];
      }
    }
  }

  /** The component's state. */
  class Chat {
    var surprisePrompt: string
    var communityPrompt: string
    var chatHistory: seq<string>
    var input: string
    var dailyAskComplete: bool

    /** The history starts with the three initial questions and every later entry was a
        non-blank send; the daily ask is complete exactly when something has been sent. */
    ghost predicate Valid()
      reads this
    {
      && ValidHistory(chatHistory)
      && (dailyAskComplete <==> |chatHistory| > |InitialHistory|)
    }

    constructor ()
      ensures Valid()
      ensures surprisePrompt == SurprisePrompts[0] && communityPrompt == CommunityQuestions[0]
      ensures chatHistory == InitialHistory && input == "" && !dailyAskComplete
    {
      surprisePrompt := SurprisePrompts[0];
      communityPrompt := CommunityQuestions[0];
      chatHistory := InitialHistory;
      input := "";
      dailyAskComplete := false;
    }

    /** `handleSend`: a blank input changes nothing; otherwise the input, untrimmed, is
        appended to the history, the box is cleared and the daily ask is complete. */
    method HandleSend()
      requires Valid()
      modifies this`chatHistory, this`input, this`dailyAskComplete
      ensures Valid()
      ensures surprisePrompt == old(surprisePrompt) && communityPrompt == old(communityPrompt)
      ensures IsBlank(old(input)) ==>
        chatHistory == old(chatHistory) && input == old(input) && dailyAskComplete == old(dailyAskComplete)
      ensures !IsBlank(old(input)) ==>
        chatHistory == old(chatHistory) + [old(input)] && input == "" && dailyAskComplete
      ensures old(dailyAskComplete) ==> dailyAskComplete
    {
      var sent := input;
      var blank := IsBlank(sent);
      if blank {
        return;
      }
      AppendKeepsHistoryValid(chatHistory, sent);
      chatHistory := chatHistory + [sent];
      input := "";
      dailyAskComplete := true;
      assert ValidHistory(chatHistory) && |chatHistory| > |InitialHistory|;
    }

    /** `handleExampleClick`, and typing in the box: only the input changes. */
    method HandleExampleClick(prompt: string)
      requires Valid()
      modifies this`input
      ensures Valid()
      ensures input == prompt
    {
      input := prompt;
    }

    /** `handleSurprise`; `pick` stands for `Math.floor(Math.random() * length)`. The same
        prompt goes to the input box and to the "Teach Me" card. */
    method HandleSurprise(pick: nat)
      requires Valid()
      requires pick < |SurprisePrompts|
      modifies this`input, this`surprisePrompt
      ensures Valid()
      ensures input == SurprisePrompts[pick] && surprisePrompt == SurprisePrompts[pick]
    {
      var newPrompt := SurprisePrompts[pick];
      input := newPrompt;
      surprisePrompt := newPrompt;
    }

    /** `handleCommunityPrompt`, likewise with the community questions. */
    method HandleCommunityPrompt(pick: nat)
      requires Valid()
      requires pick < |CommunityQuestions|
      modifies this`input, this`communityPrompt
      ensures Valid()
      ensures input == CommunityQuestions[pick] && communityPrompt == CommunityQuestions[pick]
    {
      var random := CommunityQuestions[pick];
      input := random;
      communityPrompt := random;
    }
  }

  /** A blank send is ignored; a real one is appended as typed and completes the daily ask,
      which stays complete after a later blank send. */
  method SendScenario()
  {
    var chat := new Chat();
    chat.HandleExampleClick(" \t ");
    assert AllWhitespace(chat.input);
    TrimEmptyIffAllWhitespace(chat.input);
    chat.HandleSend();
    assert chat.chatHistory == InitialHistory && !chat.dailyAskComplete;
    chat.HandleExampleClick(" Hi ");
    assert !IsWhitespace(chat.input[1]);
    TrimEmptyIffAllWhitespace(chat.input);
    chat.HandleSend();
    assert chat.chatHistory == InitialHistory + [" Hi "] && chat.input == "" && chat.dailyAskComplete;
    chat.HandleSend();
    assert chat.dailyAskComplete;
  }
}
