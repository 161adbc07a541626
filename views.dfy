/**
 * The session-backed views of `ijunavi/views.py`: the question-and-answer
 * chat (`chat_view`), the bookmark removal (`bookmark_remove`) and the
 * history lines of the profile page (`mypage_view`).
 */
module Views {
  import opened Common
  import opened Text

  /** One chat message, `{"role": ..., "text": ...}`. */
  datatype Message = Message(role: string, text: string)

  function Bot(text: string): Message
  {
    Message("bot", text)
  }

  function User(text: string): Message
  {
    Message("user", text)
  }

  /** A saved place, `{"title", "address", "saved_at"}`. */
  datatype Bookmark = Bookmark(title: string, address: string, savedAt: string)

  /** The values the views keep in the Django session. */
  datatype Value =
    | VBool(b: bool)
    | VInt(i: int)
    | VMessages(msgs: seq<Message>)
    | VAnswers(answers: map<string, int>)
    | VBookmarks(marks: seq<Bookmark>)
    | VProfile(fields: map<string, Option<string>>)
    | VOther

  /** Each key the views read holds the kind of value they write there. */
  predicate WellTyped(data: map<string, Value>)
  {
    && ("chat_active" in data ==> data["chat_active"].VBool?)
    && ("messages" in data ==> data["messages"].VMessages?)
    && ("step" in data ==> data["step"].VInt?)
    && ("answers" in data ==> data["answers"].VAnswers?)
    && ("bookmarks" in data ==> data["bookmarks"].VBookmarks?)
    && ("profile" in data ==> data["profile"].VProfile?)
  }

  /** `request.session`: a dictionary the views read and write. */
  class Session {
    var data: map<string, Value>

    constructor (data0: map<string, Value>)
      ensures data == data0
    {
      data := data0;
    }

    predicate Valid()
      reads this
    {
      WellTyped(data)
    }
  }

  // ---------------------------------------------------------------- chat

  const InitialBotMessages: seq<string> := ["こんにちは！", "あなたにおすすめの場所を探します"]
  const FirstQuestion: string := "年齢を教えてください"
  const AgeRetry: string := "すみません、数字で年齢を教えてください。"
  const TrialEnd: string := "今回は体験版のためここまでです。次の質問を追加したい場合は教えてください。"
  const NotConfigured: string := "次の質問は未設定です。追加したい質問を教えてください。"

  /** `f"ありがとうございます。{age_val}歳ですね。"`. */
  function AgeConfirmation(age: int): string
  {
    "ありがとうございます。" + IntToString(age) + "歳ですね。"
  }

  /** The session keys the chat owns; `reset` deletes these. */
  const ChatKeys: set<string> := {"chat_active", "messages", "step", "answers"}

  /** `(chat_active, messages, step, answers)`; `step` is 0 before the start, 1 while waiting for the age, 2 after. */
  datatype ChatState = ChatState(active: bool, messages: seq<Message>, step: int, answers: map<string, int>)

  /** The four `session.get` calls at the top of `chat_view`, with their defaults. */
  function ChatOf(data: map<string, Value>): ChatState
    requires WellTyped(data)
  {
    ChatState(
      if "chat_active" in data then data["chat_active"].b else false,
      if "messages" in data then data["messages"].msgs else [],
      if "step" in data then data["step"].i else 0,
      if "answers" in data then data["answers"].answers else map[])
  }

  /** The bot messages a started chat shows: the greetings, then the age question. */
  function StartMessages(): (ms: seq<Message>)
  {
    seq(|InitialBotMessages|, k requires 0 <= k < |InitialBotMessages| => Bot(InitialBotMessages[k])) + [Bot(FirstQuestion)]
  }

  /** `(request.POST.get("message") or "").strip()`. */
  function UserText(message: Option<string>): string
  {
    Strip(if message.Some? then message.value else "")
  }

  /**
   * The chat after a non-blank `send`: the user's message, then the bot's
   * reply. At step 1 the reply depends on `int()` of the message's
   * `isdigit()` characters joined in order.
   */
  function Reply(s: ChatState, userMsg: string): ChatState
  {
    ReplyWith(s, userMsg, ParseInt(Digits(userMsg)))
  }

  /** `Reply` once the age has been parsed as `ageVal` (`None` where `int()` raised). */
  function ReplyWith(s: ChatState, userMsg: string, ageVal: Option<int>): (r: ChatState)
    ensures r.active == s.active
    ensures |s.messages| + 2 <= |r.messages| <= |s.messages| + 3
    ensures r.messages[..|s.messages| + 1] == s.messages + [User(userMsg)]
    ensures forall k :: |s.messages| < k < |r.messages| ==> r.messages[k].role == "bot"
    ensures r.step == 2 || (r.step == 1 && s.step == 1)
    ensures r.answers.Keys <= s.answers.Keys + {"age"}
    ensures forall key :: key in s.answers && key != "age" ==> key in r.answers && r.answers[key] == s.answers[key]
  {
    var msgs := s.messages + [User(userMsg)];
    if s.step == 1 then
      match ageVal
      case None => ChatState(s.active, msgs + [Bot(AgeRetry)], s.step, s.answers)
      case Some(age) => ChatState(s.active, msgs + [Bot(AgeConfirmation(age)), Bot(TrialEnd)], 2, s.answers["age" := age])
    else
      ChatState(s.active, msgs + [Bot(NotConfigured)], 2, s.answers)
  }

  /** The session keys a non-blank `send` writes: `answers` at step 1 only, then `messages` and `step`. */
  function SendWrites(data: map<string, Value>, s: ChatState, r: ChatState): map<string, Value>
  {
    (if s.step == 1 then data["answers" := VAnswers(r.answers)] else data)["messages" := VMessages(r.messages)]["step" := VInt(r.step)]
  }

  /** The session after `reset`: every chat key gone, every other key as it was. */
  function WithoutChatKeys(data: map<string, Value>): (r: map<string, Value>)
    ensures r.Keys == data.Keys - ChatKeys
    ensures forall key :: key in r ==> r[key] == data[key]
  {
    map key | key in data && key !in ChatKeys :: data[key]
  }

  /** What `chat_view` answers: the chat page with its context, or the redirect after a reset. */
  datatype ChatResponse = ChatPage(view: ChatState) | RedirectToChat

  /**
   * `chat_view(request)`: `isPost` is `request.method == "POST"`, `action`
   * and `message` the form fields (`None` when absent).
   */
  method ChatView(session: Session, isPost: bool, action: Option<string>, message: Option<string>)
    returns (resp: ChatResponse)
    requires session.Valid()
    modifies session
    ensures session.Valid()
    ensures !isPost ==> session.data == old(session.data) && resp == ChatPage(ChatOf(old(session.data)))
    ensures isPost && action == Some("start") ==>
      && session.data == old(session.data)["chat_active" := VBool(true)]["messages" := VMessages(StartMessages())]
                                          ["step" := VInt(1)]["answers" := VAnswers(map[])]
      && resp == ChatPage(ChatState(true, StartMessages(), 1, ChatOf(old(session.data)).answers))
    ensures isPost && action == Some("send") && ChatOf(old(session.data)).active ==>
      var s, u := ChatOf(old(session.data)), UserText(message);
      if u == "" then session.data == old(session.data) && resp == ChatPage(s)
      else session.data == SendWrites(old(session.data), s, Reply(s, u)) && resp == ChatPage(Reply(s, u))
    ensures isPost && action == Some("reset") ==> session.data == WithoutChatKeys(old(session.data)) && resp == RedirectToChat
    ensures isPost && action != Some("start") && action != Some("reset")
            && !(action == Some("send") && ChatOf(old(session.data)).active) ==>
      session.data == old(session.data) && resp == ChatPage(ChatOf(old(session.data)))
  {
    var s := ChatOf(session.data);
    if isPost {
      if action == Some("start") {
        var messages := StartChat(session);
        return ChatPage(ChatState(true, messages, 1, s.answers));
      } else if action == Some("send") && s.active {
        var userMsg := UserText(message);
        if userMsg != "" {
          var r := SendChat(session, s, userMsg);
          return ChatPage(r);
        }
      } else if action == Some("reset") {
        session.data := WithoutChatKeys(session.data);
        return RedirectToChat;
      }
    }
    resp := ChatPage(s);
  }

  /** The `start` branch: the opening messages, written to the session with step 1 and no answers. */
  method StartChat(session: Session) returns (messages: seq<Message>)
    requires session.Valid()
    modifies session
    ensures session.Valid()
    ensures messages == StartMessages()
    ensures session.data == old(session.data)["chat_active" := VBool(true)]["messages" := VMessages(StartMessages())]
                                             ["step" := VInt(1)]["answers" := VAnswers(map[])]
  {
    session.data := session.data["chat_active" := VBool(true)];
    messages := [];
    for j := 0 to |InitialBotMessages|
      invariant messages == seq(j, k requires 0 <= k < j => Bot(InitialBotMessages[k]))
    {
      messages := messages + [Bot(InitialBotMessages[j])];
    }
    messages := messages + [Bot(FirstQuestion)];
    var step := 1;
    session.data := session.data["messages" := VMessages(messages)]["step" := VInt(step)]["answers" := VAnswers(map[])];
  }

  /** The `send` branch on a non-blank message `userMsg`, from the chat `s` read at the top. */
  method SendChat(session: Session, s: ChatState, userMsg: string) returns (r: ChatState)
    requires session.Valid()
    modifies session
    ensures session.Valid()
    ensures r == Reply(s, userMsg)
    ensures session.data == SendWrites(old(session.data), s, r)
  {
    if s.step == 1 {
      r := AgeReply(s, userMsg);
      session.data := session.data["answers" := VAnswers(r.answers)];
    } else {
      var messages := s.messages + [User(userMsg)];
      messages := messages + [Bot(NotConfigured)];
      r := ChatState(s.active, messages, 2, s.answers);
      LaterStepNotConfigured(s, userMsg);
    }
    session.data := session.data["messages" := VMessages(r.messages)]["step" := VInt(r.step)];
  }

  /** The step-1 reply: read the age, or ask again. */
  method AgeReply(s: ChatState, userMsg: string) returns (r: ChatState)
    requires s.step == 1
    ensures r == Reply(s, userMsg)
  {
    var messages, step, answers := s.messages + [User(userMsg)], s.step, s.answers;
    var ageVal := ParseInt(Digits(userMsg));
    if ageVal.None? {
      messages := messages + [Bot(AgeRetry)];
    } else {
      answers := answers["age" := ageVal.value];
      ghost var withUser := messages;
      messages := messages + [Bot(AgeConfirmation(ageVal.value))];
      messages := messages + [Bot(TrialEnd)];
      assert messages == withUser + [Bot(AgeConfirmation(ageVal.value)), Bot(TrialEnd)];
      step := 2;
    }
    r := ChatState(s.active, messages, step, answers);
  }

  /** `start` opens the chat with the two greetings and the age question, waiting for the age with no answers. */
  lemma StartedChat(data: map<string, Value>)
    requires WellTyped(data)
    ensures var d := data["chat_active" := VBool(true)]["messages" := VMessages(StartMessages())]
                         ["step" := VInt(1)]["answers" := VAnswers(map[])];
      && WellTyped(d)
      && ChatOf(d) == ChatState(true, StartMessages(), 1, map[])
      && |StartMessages()| == 3
      && (forall k :: 0 <= k < 3 ==> StartMessages()[k].role == "bot")
      && StartMessages()[2].text == FirstQuestion
  {
  }

  /** After `reset` the chat reads as never started; the keys of the other views survive. */
  lemma ResetRestartsChat(data: map<string, Value>)
    requires WellTyped(data)
    ensures WellTyped(WithoutChatKeys(data))
    ensures ChatOf(WithoutChatKeys(data)) == ChatState(false, [], 0, map[])
    ensures forall key :: key in data && key !in ChatKeys ==> key in WithoutChatKeys(data)
  {
  }

  /**
   * At step 1 the age is taken exactly when `int()` accepts the joined
   * `isdigit()` characters: some, all decimal digits, within the digit
   * limit. It is their decimal value; two bot messages follow and the step
   * moves to 2.
   */
  lemma AgeAccepted(s: ChatState, u: string)
    requires s.step == 1 && IntOfDigits(Digits(u)).Some?
    ensures var age := DigitsValue(Digits(u));
      Reply(s, u) == ChatState(s.active, s.messages + [User(u)] + [Bot(AgeConfirmation(age)), Bot(TrialEnd)],
                               2, s.answers["age" := age])
  {
    var ds := Digits(u);
    var age := DigitsValue(ds);
    ParseJoinedDigits(ds);
    assert ParseInt(ds) == Some(age as int);
    assert Reply(s, u) == ReplyWith(s, u, Some(age as int));
  }

  /** Otherwise the bot asks again, and the step and the answers stay as they were. */
  lemma AgeRejected(s: ChatState, u: string)
    requires s.step == 1 && IntOfDigits(Digits(u)).None?
    ensures Reply(s, u) == ChatState(s.active, s.messages + [User(u)] + [Bot(AgeRetry)], 1, s.answers)
  {
    ParseJoinedDigits(Digits(u));
    assert Reply(s, u) == ReplyWith(s, u, None);
  }

  /** A message without digits is rejected. */
  lemma NoDigitsRejected(s: ChatState, u: string)
    requires s.step == 1 && forall k :: 0 <= k < |u| ==> !IsDigit(u[k])
    ensures Reply(s, u) == ChatState(s.active, s.messages + [User(u)] + [Bot(AgeRetry)], 1, s.answers)
  {
    assert Digits(u) == [];
    AgeRejected(s, u);
  }

  /** A superscript digit counts for `isdigit()` but not for `int()`: such a message is rejected too. */
  lemma SuperscriptRejected(s: ChatState)
    requires s.step == 1
    ensures Reply(s, "2²") == ChatState(s.active, s.messages + [User("2²")] + [Bot(AgeRetry)], 1, s.answers)
  {
    var u := "2²";
    assert Digits(u) == u by {
      DigitsOfDigitString(u);
    }
    assert !IsDecimal(u[1]);
    AgeRejected(s, u);
  }

  /** A number written inside a sentence without other digits, as in "20歳です", is read as that number. */
  lemma AgeInSentence(s: ChatState, p: string, n: nat, q: string)
    requires s.step == 1 && |NatToString(n)| <= MaxStrDigits
    requires forall k :: 0 <= k < |p| ==> !IsDigit(p[k])
    requires forall k :: 0 <= k < |q| ==> !IsDigit(q[k])
    ensures var r := Reply(s, p + NatToString(n) + q);
      && r.step == 2 && "age" in r.answers && r.answers["age"] == n
      && r.messages[|s.messages| + 1] == Bot(AgeConfirmation(n))
  {
    var u := p + NatToString(n) + q;
    DigitsAroundNumber(p, n, q);
    NatToStringRoundTrip(n);
    AgeAccepted(s, u);
  }

  /** Two numbers in one message run together: "20歳、3人" gives the age 203. */
  lemma NumbersRunTogether(s: ChatState)
    requires s.step == 1
    ensures "age" in Reply(s, "20歳、3人").answers && Reply(s, "20歳、3人").answers["age"] == 203
  {
    SampleDigits();
    SampleValue();
    AgeAccepted(s, "20歳、3人");
  }

  lemma SampleDigits()
    ensures Digits("20歳、3人") == "203"
  {
    var u := "20歳、3人";
    assert u[1..] == "0歳、3人";
    assert u[2..] == "歳、3人";
    assert u[3..] == "、3人";
    assert u[4..] == "3人";
    assert u[5..] == "人";
    assert Digits("人") == [];
    assert Digits("3人") == "3";
    assert Digits("、3人") == "3";
    assert Digits("歳、3人") == "3";
    assert Digits("0歳、3人") == "03";
  }

  lemma SampleValue()
    ensures DigitsValue("203") == 203
  {
    assert "203"[..2] == "20";
    assert "20"[..1] == "2";
    assert "2"[..0] == "";
  }

  /** Past step 1 every message gets the "not configured" reply and the step is 2. */
  lemma LaterStepNotConfigured(s: ChatState, u: string)
    requires s.step != 1
    ensures Reply(s, u) == ChatState(s.active, s.messages + [User(u)] + [Bot(NotConfigured)], 2, s.answers)
  {
  }

  /** The pages `chat_view` can lead to never leave steps 0 through 2 once there. */
  lemma StepStaysInRange(s: ChatState, u: string)
    requires 0 <= s.step <= 2
    ensures 1 <= Reply(s, u).step <= 2
    ensures Reply(s, u).step >= s.step
  {
  }

  // ------------------------------------------------------------ bookmarks

  /** `list.pop(i)` on a valid index: the element at `i` goes, the others keep their order. */
  function RemoveAt<T>(xs: seq<T>, i: nat): (r: seq<T>)
    requires i < |xs|
    ensures |r| == |xs| - 1
    ensures forall k :: 0 <= k < i ==> r[k] == xs[k]
    ensures forall k :: i <= k < |r| ==> r[k] == xs[k + 1]
    ensures multiset(r) + multiset{xs[i]} == multiset(xs)
  {
    assert xs == xs[..i] + [xs[i]] + xs[i + 1..];
    xs[..i] + xs[i + 1..]
  }

  /** `session.get("bookmarks")`, `[]` when absent. */
  function BookmarksOf(data: map<string, Value>): seq<Bookmark>
    requires WellTyped(data)
  {
    if "bookmarks" in data then data["bookmarks"].marks else []
  }

  /** `int(idx)` where it does not raise and lands inside the list; `int(None)` raises. */
  function RemovalIndex(index: Option<string>, n: nat): (r: Option<nat>)
    ensures r.Some? <==> index.Some? && ParseInt(index.value).Some? && 0 <= ParseInt(index.value).value < n
    ensures r.Some? ==> r.value < n && ParseInt(index.value) == Some(r.value as int)
  {
    if index.None? then None
    else match ParseInt(index.value)
      case None => None
      case Some(i) => if 0 <= i < n then Some(i as nat) else None
  }

  /** `_get_bookmarks(request)`: the list, stored as `[]` on first use. */
  method GetBookmarks(session: Session) returns (bms: seq<Bookmark>)
    requires session.Valid()
    modifies session
    ensures session.Valid()
    ensures bms == BookmarksOf(old(session.data))
    ensures session.data == if "bookmarks" in old(session.data) then old(session.data)
                            else old(session.data)["bookmarks" := VBookmarks([])]
  {
    if "bookmarks" in session.data {
      bms := session.data["bookmarks"].marks;
    } else {
      bms := [];
      session.data := session.data["bookmarks" := VBookmarks(bms)];
    }
  }

  /**
   * `bookmark_remove(request)`: on a POST removes the bookmark at `index`
   * when it is an integer inside the list; the redirect that follows is left
   * out.
   */
  method BookmarkRemove(session: Session, isPost: bool, index: Option<string>)
    requires session.Valid()
    modifies session
    ensures session.Valid()
    ensures !isPost ==> session.data == old(session.data)
    ensures isPost ==>
      var bs := BookmarksOf(old(session.data));
      var stored := if "bookmarks" in old(session.data) then old(session.data)
                    else old(session.data)["bookmarks" := VBookmarks([])];
      match RemovalIndex(index, |bs|)
      case Some(i) => session.data == stored["bookmarks" := VBookmarks(RemoveAt(bs, i))]
      case None => session.data == stored
  {
    if isPost {
      var bookmarks := GetBookmarks(session);
      var i := if index.Some? then ParseInt(index.value) else None;
      if i.Some? && 0 <= i.value < |bookmarks| {
        bookmarks := RemoveAt(bookmarks, i.value);
        session.data := session.data["bookmarks" := VBookmarks(bookmarks)];
      }
    }
  }

  /** An index written as `str(i)` for `i` inside the list removes exactly that bookmark. */
  lemma RemoveRenderedIndex(bs: seq<Bookmark>, i: nat)
    requires i < |bs| && |IntToString(i)| <= MaxStrDigits
    ensures RemovalIndex(Some(IntToString(i)), |bs|) == Some(i)
  {
    ParseIntRoundTrip(i);
  }

  /** A negative index is never used as Python's count from the end. */
  lemma NegativeIndexIgnored(n: nat, i: int)
    requires i < 0 && |IntToString(i)| <= MaxStrDigits
    ensures RemovalIndex(Some(IntToString(i)), n).None?
  {
    ParseIntRoundTrip(i);
  }

  /**
   * An index with an ASCII separator (U+001C to U+001F) before it makes `int()`
   * raise, so the list stays as it was, although `str.isspace()` holds of the
   * separator.
   */
  lemma SeparatorIndexIgnored(n: nat, c: char, s: string)
    requires '\U{1c}' <= c <= '\U{1f}'
    ensures IsSpace(c)
    ensures RemovalIndex(Some([c] + s), n).None?
    ensures RemovalIndex(Some(s + [c]), n).None?
  {
    ParseIntSeparatorPadded(c, s);
  }

  // -------------------------------------------------------------- my page

  const NoHistory: string := "履歴はまだありません"

  /** `f"{m.get('role','')} を保存しました（仮）"`. */
  function HistoryLine(m: Message): string
  {
    m.role + " を保存しました（仮）"
  }

  /** One line per message among the last two, or the single "no history yet" line. */
  predicate IsHistoryFor(lines: seq<string>, msgs: seq<Message>)
  {
    && (msgs == [] ==> lines == [NoHistory])
    && (msgs != [] ==>
          && |lines| == Min(2, |msgs|)
          && forall k :: 0 <= k < |lines| ==> lines[k] == HistoryLine(msgs[|msgs| - |lines| + k]))
  }

  /** The `history_lines` loop of `mypage_view`. */
  method HistoryLines(msgs: seq<Message>) returns (lines: seq<string>)
    ensures IsHistoryFor(lines, msgs)
  {
    if msgs != [] {
      var tail := if |msgs| >= 2 then msgs[|msgs| - 2..] else msgs;
      lines := [];
      for j := 0 to |tail|
        invariant |lines| == j
        invariant forall k :: 0 <= k < j ==> lines[k] == HistoryLine(tail[k])
      {
        lines := lines + [HistoryLine(tail[j])];
      }
    } else {
      lines := [NoHistory];
    }
  }

  /** The placeholder profile `_get_profile` stores when there is none. */
  const DefaultProfile: map<string, Option<string>> :=
    map["username" := Some("ユーザー名"), "email" := Some("xxx@xx.xx"), "image" := None]

  /** `mypage_view(request)`: the profile, stored as the placeholder when missing or empty, and the history lines. */
  method MypageView(session: Session) returns (profile: map<string, Option<string>>, lines: seq<string>)
    requires session.Valid()
    modifies session
    ensures session.Valid()
    ensures var had := "profile" in old(session.data) && old(session.data)["profile"].fields != map[];
      && (had ==> profile == old(session.data)["profile"].fields && session.data == old(session.data))
      && (!had ==> profile == DefaultProfile && session.data == old(session.data)["profile" := VProfile(DefaultProfile)])
    ensures IsHistoryFor(lines, ChatOf(old(session.data)).messages)
  {
    if "profile" in session.data && session.data["profile"].fields != map[] {
      profile := session.data["profile"].fields;
    } else {
      profile := DefaultProfile;
      session.data := session.data["profile" := VProfile(profile)];
    }
    var chatMsgs := if "messages" in session.data then session.data["messages"].msgs else [];
    lines := HistoryLines(chatMsgs);
  }
}
