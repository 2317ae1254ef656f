/** The outcome of one call to the text-generation backend, and what each persona's
    `generate` makes of it; engineer.py also sorts failures into four categories, each with
    its own apology. */
module Generation {
  import opened Common
  import opened Text

  /** What the backend call produced: nothing, a response with its text, or an exception
      with its message. */
  datatype GenOutcome = NoResponse | Response(text: string) | Raised(message: string)

  /** The failure categories of engineer.py's `generate`. */
  datatype ErrorKind = AuthError | QuotaError | ModelError | Unknown

  /** The keyword tests of the exception handler, each on the upper-cased text; a keyword
      does not fit in a text shorter than it. */
  function MentionsAuth(message: string): (r: bool)
    ensures r ==> |message| >= 7
  {
    Contains(Upper(message), "API_KEY") || Contains(Upper(message), "AUTHENTICATION")
  }

  function MentionsQuota(message: string): (r: bool)
    ensures r ==> |message| >= 5
  {
    Contains(Upper(message), "QUOTA") || Contains(Upper(message), "LIMIT")
  }

  function MentionsModel(message: string): (r: bool)
    ensures r ==> |message| >= 5
  {
    Contains(Upper(message), "MODEL")
  }

  /** The ordered, case-insensitive keyword test on an exception's text: authentication
      wins over quota, quota over model, and anything else is unknown. */
  function Classify(message: string): (k: ErrorKind)
    ensures k == AuthError <==> MentionsAuth(message)
    ensures k == QuotaError <==> !MentionsAuth(message) && MentionsQuota(message)
    ensures k == ModelError <==> !MentionsAuth(message) && !MentionsQuota(message) && MentionsModel(message)
  {
    if MentionsAuth(message) then AuthError
    else if MentionsQuota(message) then QuotaError
    else if MentionsModel(message) then ModelError
    else Unknown
  }

  const UnknownPrefix: string := "API呼び出しエラー: "
  const AuthMarker: string := "API認証エラー"
  const QuotaMarker: string := "使用量制限"
  const ModelMarker: string := "モデルエラー"

  /** The fixed texts re-raised for the three known categories. */
  const AuthText: string := "API認証エラー: APIキーを確認してください"
  const QuotaText: string := "API使用量制限エラー: 制限を確認してください"
  const ModelText: string := "モデルエラー: モデル名を確認してください"

  /** The text of the exception engineer.py's `generate` re-raises for a category. Each
      known category's text carries its own marker and none of the markers searched for
      before it; the unknown category keeps the original message behind a fixed prefix. */
  function ErrorText(k: ErrorKind, message: string): (r: string)
    ensures k == AuthError ==> Contains(r, AuthMarker)
    ensures k == QuotaError ==> !Contains(r, AuthMarker) && Contains(r, QuotaMarker)
    ensures k == ModelError ==>
              !Contains(r, AuthMarker) && !Contains(r, QuotaMarker) && Contains(r, ModelMarker)
    ensures k == Unknown ==>
              |r| == |UnknownPrefix| + |message|
              && r[..|UnknownPrefix|] == UnknownPrefix && r[|UnknownPrefix|..] == message
  {
    match k
    case AuthError => AuthTextFound(); AuthText
    case QuotaError => QuotaTextFound(); QuotaText
    case ModelError => ModelTextLacksEarlier(); ModelTextFound(); ModelText
    case Unknown => UnknownPrefix + message
  }

  /** The opening and closing of the generic apology, around the quoted failure. */
  const GenericOpen: string := "申し訳ありません。返答中にエラーが発生しました。("
  const GenericClose: string := "...)"

  const AuthApology: string := "申し訳ありません。API認証に問題があります。管理者にお知らせください。"
  const QuotaApology: string := "申し訳ありません。現在API使用量制限に達しています。しばらくお待ちください。"
  const ModelApology: string := "申し訳ありません。AIモデルの設定に問題があります。管理者にお知らせください。"

  /** The apology sent for a failure of a category. The unknown one quotes the failure,
      cut to its first 50 characters: whole exactly when it is no longer than that. */
  function CategoryApology(k: ErrorKind, details: string): (r: string)
    ensures k == Unknown ==> |GenericOpen| + |GenericClose| <= |r| <= |GenericOpen| + 50 + |GenericClose|
    ensures k == Unknown ==> r[..|GenericOpen|] == GenericOpen
    ensures k == Unknown ==> (r == GenericOpen + details + GenericClose <==> |details| <= 50)
    ensures k == Unknown && |details| > 50 ==> r == GenericOpen + details[..50] + GenericClose
    ensures k == AuthError ==> r == AuthApology
    ensures k == QuotaError ==> r == QuotaApology
    ensures k == ModelError ==> r == ModelApology
  {
    match k
    case AuthError => AuthApology
    case QuotaError => QuotaApology
    case ModelError => ModelApology
    case Unknown => GenericOpen + Take(details, 50) + GenericClose
  }

  /** The apology the mention handler picks by searching the exception text for the markers
      the re-raised texts carry, in the same order. The generic apology is sent exactly when
      the text carries none of the three markers. */
  function Apology(details: string): (r: string)
    ensures r == CategoryApology(Unknown, details) <==>
              !Contains(details, AuthMarker) && !Contains(details, QuotaMarker) && !Contains(details, ModelMarker)
    ensures Contains(details, AuthMarker) ==> r == AuthApology
    ensures !Contains(details, AuthMarker) && Contains(details, QuotaMarker) ==> r == QuotaApology
    ensures !Contains(details, AuthMarker) && !Contains(details, QuotaMarker) && Contains(details, ModelMarker)
            ==> r == ModelApology
  {
    var generic := CategoryApology(Unknown, details);
    assert generic[9] == GenericOpen[9] == '返';
    if Contains(details, AuthMarker) then
      assert AuthApology[9] == 'A';
      CategoryApology(AuthError, details)
    else if Contains(details, QuotaMarker) then
      assert QuotaApology[9] == '現';
      CategoryApology(QuotaError, details)
    else if Contains(details, ModelMarker) then
      assert ModelApology[9] == 'A';
      CategoryApology(ModelError, details)
    else generic
  }

  /** What `generate` raises when the backend gives no response: the strict persona's own
      text, and the attribute error the others hit on `None.text`. */
  const NoResponseText: string := "No response from Gemini API"
  const MissingTextError: string := "'NoneType' object has no attribute 'text'"

  /** `generate` of one persona: the stripped reply text, or the text of the exception it
      lets escape. Strict (engineer.py) rejects a missing or empty response and re-raises
      every failure with its category's text; the others only strip. */
  function Generate(strict: bool, out: GenOutcome): (r: Result<string>)
    ensures r.Ok? <==> out.Response? && (strict ==> out.text != "")
    ensures r.Ok? ==> r.value == Strip(out.text)
    ensures strict && out.Raised? ==> r == Err(ErrorText(Classify(out.message), out.message))
    ensures strict && out.NoResponse? ==> r == Err(UnknownPrefix + NoResponseText)
    ensures !strict && out.NoResponse? ==> r == Err(MissingTextError)
    ensures !strict && out.Raised? ==> r == Err(out.message)
  {
    if strict then
      match out
      case NoResponse => KeywordLettersAbsent(NoResponseText); Fail(NoResponseText)
      case Response(t) => if t == "" then Fail(EmptyText) else Ok(Strip(t))
      case Raised(m) => Fail(m)
    else
      match out
      case NoResponse => Err(MissingTextError)
      case Response(t) => Ok(Strip(t))
      case Raised(m) => Err(m)
  }

  /** engineer.py's handler for a failure inside `generate`: classify, then re-raise. */
  function Fail(message: string): (r: Result<string>)
    ensures r.Err?
    ensures Classify(message) == Unknown ==> r.error == UnknownPrefix + message
    ensures Classify(message) != Unknown ==> Apology(r.error) == CategoryApology(Classify(message), r.error)
  {
    var r := Err(ErrorText(Classify(message), message));
    if Classify(message) != Unknown then ApologyFollowsCategory(message); r else r
  }

  /** The three fixed re-raised texts lead the mention handler to their own category's
      apology: the marker search recovers the category. */
  lemma {:induction false} ApologyFollowsCategory(message: string)
    requires Classify(message) != Unknown
    ensures Apology(ErrorText(Classify(message), message))
            == CategoryApology(Classify(message), ErrorText(Classify(message), message))
  {
  }

  /** The authentication text carries its own marker at its start. */
  lemma AuthTextFound()
    ensures Contains(AuthText, AuthMarker)
  {
    assert AuthText == AuthMarker + ": APIキーを確認してください";
    assert AuthText[0..|AuthMarker|] == AuthMarker;
    assert OccursAt(AuthText, AuthMarker, 0);
  }

  /** The quota text lacks the authentication marker and carries its own. */
  lemma QuotaTextFound()
    ensures !Contains(QuotaText, AuthMarker)
    ensures Contains(QuotaText, QuotaMarker)
  {
    var head := "API";
    assert QuotaText == head + QuotaMarker + "エラー: 制限を確認してください";
    AbsentCharNotContained(QuotaText, AuthMarker, 4);
    assert QuotaText[|head|..|head| + |QuotaMarker|] == QuotaMarker;
    assert OccursAt(QuotaText, QuotaMarker, |head|);
  }

  /** The model text lacks the two markers searched for before its own. */
  lemma ModelTextLacksEarlier()
    ensures !Contains(ModelText, AuthMarker)
    ensures !Contains(ModelText, QuotaMarker)
  {
    AbsentCharNotContained(ModelText, AuthMarker, 4);
    AbsentCharNotContained(ModelText, QuotaMarker, 0);
  }

  /** The model text carries its own marker at its start. */
  lemma ModelTextFound()
    ensures Contains(ModelText, ModelMarker)
  {
    assert ModelText[0..|ModelMarker|] == ModelMarker;
    assert OccursAt(ModelText, ModelMarker, 0);
  }

  /** A failure of the unknown category whose own text carries none of the markers gets the
      generic apology, which quotes the first 50 characters of the re-raised text. */
  lemma UnknownIsQuoted(message: string)
    requires !Contains(message, AuthMarker) && !Contains(message, QuotaMarker)
    requires !Contains(message, ModelMarker)
    ensures Apology(ErrorText(Unknown, message)) == CategoryApology(Unknown, UnknownPrefix + message)
  {
    AbsentCharNotContained(UnknownPrefix, AuthMarker, 3);
    NotContainedInConcat(UnknownPrefix, message, AuthMarker);
    AbsentCharNotContained(UnknownPrefix, QuotaMarker, 0);
    NotContainedInConcat(UnknownPrefix, message, QuotaMarker);
    AbsentCharNotContained(UnknownPrefix, ModelMarker, 0);
    NotContainedInConcat(UnknownPrefix, message, ModelMarker);
  }

  /** The marker search reads the text, not the category: an unknown failure whose own text
      happens to carry a marker is reported as that marker's category. */
  lemma ApologyReadsText()
    ensures Classify(ModelMarker) == Unknown
    ensures Apology(ErrorText(Unknown, ModelMarker)) == CategoryApology(ModelError, UnknownPrefix + ModelMarker)
  {
    var u := Upper(ModelMarker);
    assert u == ModelMarker;
    AbsentCharNotContained(u, "API_KEY", 0);
    AbsentCharNotContained(u, "AUTHENTICATION", 0);
    AbsentCharNotContained(u, "QUOTA", 0);
    AbsentCharNotContained(u, "LIMIT", 0);
    AbsentCharNotContained(u, "MODEL", 0);
    var t := UnknownPrefix + ModelMarker;
    AbsentCharNotContained(t, AuthMarker, 4);
    AbsentCharNotContained(t, QuotaMarker, 0);
    assert t[|UnknownPrefix|..|UnknownPrefix| + |ModelMarker|] == ModelMarker;
    assert OccursAt(t, ModelMarker, |UnknownPrefix|);
  }

  /** Classification ignores letter case: an upper-cased text falls in the same category. */
  lemma ClassifyIgnoresCase(message: string)
    ensures Classify(Upper(message)) == Classify(message)
  {
    UpperIdempotent(message);
  }

  const EmptyText: string := "Empty text response from Gemini API"

  /** A text with no `_`, no `H`, no `Q` and no `L` in either case cannot contain any of
      the keywords, so it falls in the unknown category. */
  lemma KeywordLettersAbsent(m: string)
    requires forall i :: 0 <= i < |m| ==> m[i] !in "_HhQqLl"
    ensures Classify(m) == Unknown
  {
    assert forall c :: c in "_HhQqLl" ==> c !in m;
    var u := Upper(m);
    UpperMissing(m, '_');
    AbsentCharNotContained(u, "API_KEY", 3);
    UpperMissing(m, 'H');
    AbsentCharNotContained(u, "AUTHENTICATION", 3);
    UpperMissing(m, 'Q');
    AbsentCharNotContained(u, "QUOTA", 0);
    UpperMissing(m, 'L');
    AbsentCharNotContained(u, "LIMIT", 0);
    AbsentCharNotContained(u, "MODEL", 4);
  }

  /** An empty response is a failure of the unknown category. */
  lemma EmptyResponseIsUnknown()
    ensures Classify(EmptyText) == Unknown
    ensures Generate(true, Response("")) == Err(UnknownPrefix + EmptyText)
  {
    KeywordLettersAbsent(EmptyText);
  }

  /** The mention apology for an empty response is the generic one, and it quotes the whole
      re-raised text, which is shorter than 50 characters. */
  lemma EmptyResponseIsQuoted()
    ensures Apology(UnknownPrefix + EmptyText) == CategoryApology(Unknown, UnknownPrefix + EmptyText)
    ensures Take(UnknownPrefix + EmptyText, 50) == UnknownPrefix + EmptyText
  {
    assert IsAscii(EmptyText);
    NonAsciiNotContained(EmptyText, AuthMarker, 3);
    NonAsciiNotContained(EmptyText, QuotaMarker, 0);
    NonAsciiNotContained(EmptyText, ModelMarker, 0);
    UnknownIsQuoted(EmptyText);
  }
}
