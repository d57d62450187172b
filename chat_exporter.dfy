/**
 * The ChatGPT share-link exporter page: the share-link validator, the chat id
 * taken from the link, the lookup in the built-in sample data, the submit
 * handler's loading/error/info states, and the export options.
 */
module ChatExporter {
  import opened Js

  const SharePrefix: string := "https://chat.openai.com/share/"

  /** A character of the id class `[a-f0-9-]`. */
  predicate IdChar(c: char)
  {
    ('a' <= c <= 'f') || ('0' <= c <= '9') || c == '-'
  }

  /** `[a-f0-9-]{n}$`: exactly `n` id characters and then the end. */
  predicate IdRun(s: string, n: nat)
    decreases n
  {
    if n == 0 then s == [] else |s| > 0 && IdChar(s[0]) && IdRun(s[1..], n - 1)
  }

  /**
   * `validateUrl`: the anchored pattern. The link has the prefix's length
   * plus 36, and the id part after the prefix is matched left to right.
   */
  predicate ValidUrl(url: string)
  {
    && |url| == |SharePrefix| + 36
    && url[..|SharePrefix|] == SharePrefix
    && IdRun(url[|SharePrefix|..], |url| - |SharePrefix|)
  }

  lemma {:induction false} IdRunSpec(s: string, n: nat)
    ensures IdRun(s, n) <==> |s| == n && forall i :: 0 <= i < |s| ==> IdChar(s[i])
    decreases n
  {
    if n > 0 && |s| > 0 {
      IdRunSpec(s[1..], n - 1);
      if |s| == n && forall i :: 0 <= i < |s| ==> IdChar(s[i]) {
        forall i | 0 <= i < |s[1..]| ensures IdChar(s[1..][i]) {
          assert s[1..][i] == s[i + 1];
        }
      }
      if IdRun(s, n) {
        forall i | 0 <= i < |s| ensures IdChar(s[i]) {
          if i > 0 {
            assert s[i] == s[1..][i - 1];
          }
        }
      }
    }
  }

  /**
   * A link is valid iff it is the share prefix followed by exactly 36
   * characters, each a lower-case hex digit or a dash.
   */
  lemma ValidUrlSpec(url: string)
    ensures ValidUrl(url) <==>
      && |url| == |SharePrefix| + 36
      && url[..|SharePrefix|] == SharePrefix
      && forall i :: |SharePrefix| <= i < |url| ==> IdChar(url[i])
  {
    if |SharePrefix| <= |url| {
      var rest := url[|SharePrefix|..];
      IdRunSpec(rest, |url| - |SharePrefix|);
      if forall i :: 0 <= i < |rest| ==> IdChar(rest[i]) {
        forall i | |SharePrefix| <= i < |url| ensures IdChar(url[i]) {
          assert url[i] == rest[i - |SharePrefix|];
        }
      }
      if forall i :: |SharePrefix| <= i < |url| ==> IdChar(url[i]) {
        forall i | 0 <= i < |rest| ensures IdChar(rest[i]) {
          assert rest[i] == url[i + |SharePrefix|];
        }
      }
    }
  }

  /** `url.split('/').pop()` */
  function ChatId(url: string): string
  {
    Last(Split(url, '/'))
  }

  /** The last piece of a split, after the final separator, is whatever follows it. */
  lemma {:induction false} LastPieceAfterSeparator(a: string, b: string)
    requires '/' !in b
    ensures Last(Split(a + ['/'] + b, '/')) == b
    decreases |a|
  {
    assert Split(b, '/') == [b] by {
      assert IndexOfChar(b, '/') == -1;
    }
    var i := IndexOfChar(a, '/');
    if i == -1 {
      SplitCons(a, '/', b);
    } else {
      var head, tail := a[..i], a[i + 1..];
      assert a == head + ['/'] + tail;
      assert a + ['/'] + b == head + ['/'] + (tail + ['/'] + b);
      SplitCons(head, '/', tail + ['/'] + b);
      LastPieceAfterSeparator(tail, b);
    }
  }

  /** After a prefix ending in '/', a suffix free of '/' is the last piece of the split. */
  lemma ChatIdAfterPrefix(url: string, prefix: string)
    requires 0 < |prefix| <= |url| && prefix[|prefix| - 1] == '/' && url[..|prefix|] == prefix
    requires '/' !in url[|prefix|..]
    ensures ChatId(url) == url[|prefix|..]
  {
    var n := |prefix|;
    assert url == prefix[..n - 1] + ['/'] + url[n..];
    LastPieceAfterSeparator(prefix[..n - 1], url[n..]);
  }

  /** For a valid link the chat id is exactly its 36-character suffix. */
  lemma ChatIdOfValidUrl(url: string)
    requires ValidUrl(url)
    ensures ChatId(url) == url[|SharePrefix|..]
    ensures |ChatId(url)| == 36
  {
    ValidUrlSpec(url);
    var n := |SharePrefix|;
    var id := url[n..];
    assert '/' !in id by {
      forall i | 0 <= i < |id| ensures id[i] != '/' {
        assert IdChar(url[i + n]);
      }
    }
    assert SharePrefix[n - 1] == '/';
    ChatIdAfterPrefix(url, SharePrefix);
  }

  // ---------------------------------------------------------------------------
  // The sample data and its lookup
  // ---------------------------------------------------------------------------

  datatype ChatInfo = ChatInfo(title: string, messageCount: nat, createdAt: string)

  /** A record of the sample data: chat information, or a record flagged as an error. */
  datatype ChatRecord = InfoRecord(info: ChatInfo) | ErrorRecord(message: string)

  datatype Outcome = Resolved(info: ChatInfo) | Rejected(message: string)

  const ErrorTestId: string := "error-test-id"

  const MockChatData: map<string, ChatRecord> := map[
    "66f7f694-8668-8003-920a-e5692fa8a019" :=
      InfoRecord(ChatInfo("Discussão sobre IA Generativa", 15, "2023-09-15T14:30:00Z")),
    "55e6e583-7557-7002-810b-d4581eb7b008" :=
      InfoRecord(ChatInfo("Explorando o Futuro da Tecnologia", 23, "2023-09-16T10:15:00Z")),
    ErrorTestId :=
      ErrorRecord("Erro ao carregar informações do chat. Por favor, tente novamente.")
  ]

  /**
   * The page's fixed messages: the lookup's "not found" rejection, the
   * malformed-link error, and the fallback shown for an error without a message.
   */
  datatype Messages = Messages(notFound: string, invalidUrl: string, fallback: string)

  const PageMessages: Messages := Messages(
    "Chat não encontrado. Por favor, verifique a URL e tente novamente.",
    "Formato de URL inválido. Por favor, use um link de compartilhamento válido do ChatGPT.",
    "Falha ao carregar informações do chat. Por favor, tente novamente.")

  predicate NonEmpty(m: Messages)
  {
    m.notFound != "" && m.invalidUrl != "" && m.fallback != ""
  }

  /** None of the page's messages is empty, so each one shows as an error. */
  lemma PageMessagesNonEmpty()
    ensures NonEmpty(PageMessages)
  {
  }

  /** `mockApiCall` once its delay has passed: look the chat id up in `data`. */
  function Lookup(data: map<string, ChatRecord>, msgs: Messages, url: string): Outcome
  {
    var id := ChatId(url);
    if id !in data then Rejected(msgs.notFound)
    else match data[id]
      case InfoRecord(info) => Resolved(info)
      case ErrorRecord(message) => Rejected(message)
  }

  /**
   * A known id resolves with its record, a record flagged as an error
   * rejects with its own message, and any other id rejects as not found.
   */
  lemma LookupSpec(data: map<string, ChatRecord>, msgs: Messages, url: string)
    ensures ChatId(url) in data && data[ChatId(url)].InfoRecord? ==>
      Lookup(data, msgs, url) == Resolved(data[ChatId(url)].info)
    ensures ChatId(url) in data && data[ChatId(url)].ErrorRecord? ==>
      Lookup(data, msgs, url) == Rejected(data[ChatId(url)].message)
    ensures ChatId(url) !in data ==> Lookup(data, msgs, url) == Rejected(msgs.notFound)
    ensures Lookup(data, msgs, url).Resolved? <==> ChatId(url) in data && data[ChatId(url)].InfoRecord?
  {
  }

  /**
   * The error record cannot be reached from a valid link: a valid link's id
   * has 36 characters and "error-test-id" has 13 (and contains 'r', 'o', 't').
   */
  lemma ErrorRecordUnreachable(url: string, msgs: Messages)
    requires ValidUrl(url)
    ensures ChatId(url) != ErrorTestId
    ensures Lookup(MockChatData, msgs, url).Resolved? || Lookup(MockChatData, msgs, url) == Rejected(msgs.notFound)
  {
    ChatIdOfValidUrl(url);
    var id := ChatId(url);
    assert |ErrorTestId| == 13;
    assert id in MockChatData ==> id != ErrorTestId && MockChatData[id].InfoRecord?;
  }

  /** `error.message || fallback`: a rejection with an empty message shows the fallback. */
  function ErrorText(msgs: Messages, message: string): (r: string)
    ensures message != "" ==> r == message
    ensures message == "" ==> r == msgs.fallback
    ensures msgs.fallback != "" ==> r != ""
  {
    if message != "" then message else msgs.fallback
  }

  // ---------------------------------------------------------------------------
  // The submit handler
  // ---------------------------------------------------------------------------

  /** The part of the page the submit handler changes. */
  datatype LoadState = LoadState(chatInfo: Option<ChatInfo>, isLoading: bool, error: string)

  /**
   * `handleUrlSubmit` run to completion on `url`, with the lookup's outcome
   * once the request settles.
   */
  function AfterSubmit(data: map<string, ChatRecord>, msgs: Messages, url: string, s: LoadState): LoadState
  {
    Settle(msgs, s, Trim(url) == "", ValidUrl(url), Lookup(data, msgs, url))
  }

  /** The submit handler's outcome given its two tests on the link and the lookup's outcome. */
  function Settle(msgs: Messages, s: LoadState, blank: bool, valid: bool, outcome: Outcome): LoadState
  {
    if blank then s
    else if !valid then s.(error := msgs.invalidUrl)
    else match outcome
      case Resolved(info) => LoadState(Some(info), false, "")
      case Rejected(message) => LoadState(None, false, ErrorText(msgs, message))
  }

  /**
   * A blank link changes nothing; an invalid one only sets the error; a
   * valid one ends not loading with exactly one of chat information (and no
   * error) or an error (and no information).
   */
  lemma AfterSubmitSpec(data: map<string, ChatRecord>, msgs: Messages, url: string, s: LoadState)
    ensures Trim(url) == "" ==> AfterSubmit(data, msgs, url, s) == s
    ensures Trim(url) != "" && !ValidUrl(url) ==>
      AfterSubmit(data, msgs, url, s) == LoadState(s.chatInfo, s.isLoading, msgs.invalidUrl)
    ensures ValidUrl(url) ==>
      var t := AfterSubmit(data, msgs, url, s);
      && !t.isLoading
      && (t.chatInfo.Some? <==> Lookup(data, msgs, url).Resolved?)
      && (t.chatInfo.Some? ==> t.error == "")
      && (t.chatInfo.None? && NonEmpty(msgs) ==> t.error != "")
  {
    if ValidUrl(url) {
      assert url[0] == 'h' by {
        assert url[..|SharePrefix|][0] == url[0];
      }
      assert !IsSpace(url[0]);
    }
  }

  datatype OptionValue = Flag(on: bool) | Text(text: string)

  const InitialExportOptions: map<string, OptionValue> := map[
    "includeQuestions" := Flag(true),
    "includeAnswers" := Flag(true),
    "onlyCode" := Flag(false),
    "format" := Text("markdown")
  ]

  /** `{ ...prev, [option]: value }` */
  function SetOption(options: map<string, OptionValue>, option: string, value: OptionValue): map<string, OptionValue>
  {
    options[option := value]
  }

  /** Changing an option sets that key and leaves every other key as it was. */
  lemma SetOptionSpec(options: map<string, OptionValue>, option: string, value: OptionValue)
    ensures var r := SetOption(options, option, value);
      && option in r && r[option] == value
      && (forall k :: k != option ==> (k in r <==> k in options))
      && (forall k :: k != option && k in options ==> r[k] == options[k])
  {
  }

  class ExportPage {
    /** The sample data the lookup answers from. */
    const chatData: map<string, ChatRecord>
    /** The page's fixed messages. */
    const messages: Messages
    var url: string
    var chatInfo: Option<ChatInfo>
    var isLoading: bool
    var exportOptions: map<string, OptionValue>
    var isDarkMode: bool
    var isExporting: bool
    var error: string

    function View(): LoadState
      reads this
    {
      LoadState(chatInfo, isLoading, error)
    }

    constructor ()
      ensures chatData == MockChatData && messages == PageMessages
      ensures url == "" && View() == LoadState(None, false, "")
      ensures exportOptions == InitialExportOptions && !isDarkMode && !isExporting
    {
      chatData := MockChatData;
      messages := PageMessages;
      url, chatInfo, isLoading, error := "", None, false, "";
      exportOptions := InitialExportOptions;
      isDarkMode, isExporting := false, false;
    }

    method SetUrl(value: string)
      modifies this`url
      ensures url == value
    {
      url := value;
    }

    /**
     * `handleUrlSubmit`: ignore a blank link, reject a malformed one, else
     * load the chat behind it.
     */
    method UrlSubmit()
      modifies this`chatInfo, this`isLoading, this`error
      ensures View() == AfterSubmit(chatData, messages, url, old(View()))
    {
      var blank := Trim(url) == "";
      var valid := ValidUrl(url);
      var outcome := Lookup(chatData, messages, url);
      ghost var target := Settle(messages, View(), blank, valid, outcome);
      assert AfterSubmit(chatData, messages, url, View()) == target;
      if blank {
        return;
      }
      if !valid {
        error := messages.invalidUrl;
        assert View() == target;
        return;
      }
      Load(outcome);
      assert View() == target;
    }

    /**
     * The rest of `handleUrlSubmit` for a valid link: show loading, clear
     * the error and the info, await the lookup and record its outcome;
     * loading ends whatever the outcome.
     */
    method Load(outcome: Outcome)
      modifies this`chatInfo, this`isLoading, this`error
      ensures View() == Settle(messages, old(View()), false, true, outcome)
    {
      isLoading := true;
      error := "";
      chatInfo := None;
      match outcome {
        case Resolved(info) =>
          chatInfo := Some(info);
        case Rejected(message) =>
          error := ErrorText(messages, message);
      }
      isLoading := false;
    }

    /** `handleOptionChange` */
    method OptionChange(option: string, value: OptionValue)
      modifies this`exportOptions
      ensures exportOptions == SetOption(old(exportOptions), option, value)
    {
      exportOptions := SetOption(exportOptions, option, value);
    }

    /** `handleExport` up to its 2 s wait: exporting starts. */
    method Export()
      modifies this`isExporting
      ensures isExporting
    {
      isExporting := true;
    }

    /** The end of `handleExport` once the wait is over (the `finally`): exporting ends. */
    method ExportDone()
      modifies this`isExporting
      ensures !isExporting
    {
      isExporting := false;
    }

    method ToggleDarkMode()
      modifies this`isDarkMode
      ensures isDarkMode == !old(isDarkMode)
    {
      isDarkMode := !isDarkMode;
    }
  }
}
