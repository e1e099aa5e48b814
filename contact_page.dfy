/** The contact page (src/pages/Contact.jsx): the contact form's field
    updates and the local chat assistant, which answers from fixed keyword
    groups. */
module ContactPage {
  import opened Common
  import opened Text

  /** The keyword groups, in the order they are tried: order status,
      returns, shipping, payment, product. */
  const Groups: seq<seq<string>> := [
    ["track", "status", "order"],
    ["return", "refund"],
    ["ship", "delivery", "when"],
    ["payment", "pay", "card", "upi", "wallet"],
    ["product", "stock", "available", "size", "color"]
  ]

  const OrderReply := "You can track your order in Account > Orders. If you have a tracking ID, paste it and I can guide you to the carrier site."
  const ReturnsReply := "We offer 30-day returns. Start a return from Account > Orders, select the item, and choose Return. Need help with a specific order?"
  const ShippingReply := "Standard shipping is 3-5 business days. Express options are available at checkout. What is your destination country/postal code?"
  const PaymentReply := "We accept major cards, UPI, and wallets. Payments are processed securely. Are you facing an error at checkout?"
  const ProductReply := "I can help with product availability and details. Share the product name or link, and what you are looking for."
  const FallbackReply := "I'm here to help! Could you share more details about your issue (order, returns, shipping, product)?"

  /** One reply per group, then the fallback. */
  const Replies: seq<string> := [OrderReply, ReturnsReply, ShippingReply, PaymentReply, ProductReply, FallbackReply]

  /** The text contains one of the words as a plain substring (the
      alternation `/a|b|c/` tested against the text). */
  predicate AnyKeyword(text: string, words: seq<string>) {
    exists i :: 0 <= i < |words| && Contains(text, words[i])
  }

  /** Group `g` decides the reply for `text`: no earlier group matches, and
      `g` matches unless it is the fallback (index 5). */
  predicate FirstMatch(text: string, g: int) {
    && 0 <= g <= 5
    && (g < 5 ==> AnyKeyword(text, Groups[g]))
    && forall j :: 0 <= j < g ==> !AnyKeyword(text, Groups[j])
  }

  /** `botReply`: the lower-cased text is tested against the groups in
      order and the first that matches decides the reply. */
  function BotReply(userText: string): (r: string)
    ensures exists g :: FirstMatch(Lower(userText), g) && r == Replies[g]
  {
    var text := Lower(userText);
    if AnyKeyword(text, ["track", "status", "order"]) then
      assert FirstMatch(text, 0);
      OrderReply
    else if AnyKeyword(text, ["return", "refund"]) then
      assert FirstMatch(text, 1);
      ReturnsReply
    else if AnyKeyword(text, ["ship", "delivery", "when"]) then
      assert FirstMatch(text, 2);
      ShippingReply
    else if AnyKeyword(text, ["payment", "pay", "card", "upi", "wallet"]) then
      assert FirstMatch(text, 3);
      PaymentReply
    else if AnyKeyword(text, ["product", "stock", "available", "size", "color"]) then
      assert FirstMatch(text, 4);
      ProductReply
    else
      assert FirstMatch(text, 5);
      FallbackReply
  }

  /** The first matching group is unique. */
  lemma FirstMatchUnique(text: string, g: int, h: int)
    requires FirstMatch(text, g) && FirstMatch(text, h)
    ensures g == h
  {
  }

  /** Each reply belongs to one group only. */
  lemma RepliesDistinct()
    ensures forall i, j :: 0 <= i < j < |Replies| ==> Replies[i] != Replies[j]
  {
  }

  /** The reply does not depend on letter case. */
  lemma BotReplyIgnoresCase(a: string, b: string)
    requires Lower(a) == Lower(b)
    ensures BotReply(a) == BotReply(b)
  {
  }

  /** A text that mentions an order gets the tracking reply, even when it
      also asks for a refund. */
  lemma OrderBeatsRefund(userText: string)
    requires Contains(Lower(userText), "order")
    ensures BotReply(userText) == OrderReply
  {
    var r := BotReply(userText);
    var g :| FirstMatch(Lower(userText), g) && r == Replies[g];
    assert AnyKeyword(Lower(userText), Groups[0]) by {
      assert Groups[0][2] == "order";
    }
    FirstMatchUnique(Lower(userText), g, 0);
  }

  /** Text with no keyword of any group gets the generic reply. */
  lemma NoKeywordFallsBack(userText: string)
    requires forall j :: 0 <= j < 5 ==> !AnyKeyword(Lower(userText), Groups[j])
    ensures BotReply(userText) == FallbackReply
  {
    var r := BotReply(userText);
    var g :| FirstMatch(Lower(userText), g) && r == Replies[g];
    FirstMatchUnique(Lower(userText), g, 5);
  }

  /** Keywords match inside longer words: "Ships" contains "ship" and gets
      the shipping reply. */
  lemma SubstringMatchesInsideWords()
    ensures BotReply("Ships") == ShippingReply
  {
    var text := Lower("Ships");
    assert text == "ships";
    assert StartsWith(text, "ship");
    assert text[0..5][0] == 's';
    assert !AnyKeyword(text, Groups[0]) by {
      NotContained(text, "track");
      NotContained(text, "status");
      NotContained(text, "order");
    }
    assert !AnyKeyword(text, Groups[1]) by {
      NotContained(text, "return");
      NotContained(text, "refund");
    }
    assert AnyKeyword(text, Groups[2]) by {
      assert Groups[2][0] == "ship";
    }
    var r := BotReply("Ships");
    var g :| FirstMatch(text, g) && r == Replies[g];
    FirstMatchUnique(text, g, 2);
  }

  // ----- page state -----

  datatype Role = User | Bot

  datatype ChatMessage = ChatMessage(role: Role, text: string)

  const Greeting := ChatMessage(Bot, "Hi! I'm ShopHub Assistant. How can I help you today? (e.g., order status, returns, shipping, products)")

  class ContactPageState {
    var formData: map<string, string>
    var chatInput: string
    var chatMessages: seq<ChatMessage>

    constructor ()
      ensures formData == map["name" := "", "email" := "", "subject" := "", "message" := "", "category" := "general"]
      ensures chatInput == "" && chatMessages == [Greeting]
    {
      formData := map["name" := "", "email" := "", "subject" := "", "message" := "", "category" := "general"];
      chatInput := "";
      chatMessages := [Greeting];
    }

    /** `handleInputChange`: the named field takes the value, every other
        field keeps its own. */
    method HandleInputChange(name: string, value: string)
      modifies this
      ensures formData == old(formData)[name := value]
      ensures forall k :: k in old(formData) && k != name ==> k in formData && formData[k] == old(formData)[k]
      ensures chatInput == old(chatInput) && chatMessages == old(chatMessages)
    {
      formData := formData[name := value];
    }

    method SetChatInput(value: string)
      modifies this
      ensures chatInput == value
      ensures formData == old(formData) && chatMessages == old(chatMessages)
    {
      chatInput := value;
    }

    /** `sendChat`: a blank input is ignored; otherwise the trimmed text is
        appended as the user's message and the input is cleared. The text
        is returned so that the delayed bot reply can be delivered. */
    method SendChat() returns (sent: Option<string>)
      modifies this
      ensures sent.None? <==> Trim(old(chatInput)) == ""
      ensures sent.None? ==> chatInput == old(chatInput) && chatMessages == old(chatMessages)
      ensures sent.Some? ==> sent.value == Trim(old(chatInput)) && chatInput == ""
                             && chatMessages == old(chatMessages) + [ChatMessage(User, sent.value)]
      ensures formData == old(formData)
    {
      var text := Trim(chatInput);
      if text == "" {
        return None;
      }
      chatMessages := chatMessages + [ChatMessage(User, text)];
      chatInput := "";
      sent := Some(text);
    }

    /** The delayed part of `sendChat`: the bot's answer to the sent text. */
    method DeliverBotReply(text: string)
      modifies this
      ensures chatMessages == old(chatMessages) + [ChatMessage(Bot, BotReply(text))]
      ensures formData == old(formData) && chatInput == old(chatInput)
    {
      chatMessages := chatMessages + [ChatMessage(Bot, BotReply(text))];
    }

    /** `handleKeyDown`: Enter without Shift sends. */
    method HandleKeyDown(key: string, shiftKey: bool) returns (sent: Option<string>)
      modifies this
      ensures !(key == "Enter" && !shiftKey) ==>
                sent.None? && chatInput == old(chatInput) && chatMessages == old(chatMessages)
      ensures key == "Enter" && !shiftKey ==> (sent.None? <==> Trim(old(chatInput)) == "")
      ensures key == "Enter" && !shiftKey && sent.None? ==>
                chatInput == old(chatInput) && chatMessages == old(chatMessages)
      ensures key == "Enter" && !shiftKey && sent.Some? ==>
                sent.value == Trim(old(chatInput)) && chatInput == ""
                && chatMessages == old(chatMessages) + [ChatMessage(User, sent.value)]
      ensures formData == old(formData)
    {
      sent := None;
      if key == "Enter" && !shiftKey {
        sent := SendChat();
      }
    }
  }
}
