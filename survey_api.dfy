/** The survey editor's save request: the submitted content is decoded (with the clean-up
    of over-escaped text), slider bounds are turned into strings for the iOS app, a tracking
    survey is checked by the validator, and the survey's content, timings and settings are
    saved. */
module SurveyApi {
  import opened Wrappers
  import opened PyStrings
  import opened StudyModels

  /** A decoded JSON value. Objects are dictionaries, so their key order is not kept. */
  datatype Json = JNull | JBool(b: bool) | JNum(n: int) | JStr(s: string) | JList(items: seq<Json>)
                | JObj(fields: map<string, Json>)

  /** Python `str(n)` of an integer. */
  function IntToString(n: int): (r: string)
    ensures |r| > 0
    ensures n >= 0 ==> r == NatToString(n)
    ensures n < 0 ==> r[0] == '-' && r[1..] == NatToString(-n)
  {
    if n < 0 then "-" + NatToString(-n) else NatToString(n)
  }

  /** Python `str(v)` of a decoded value; lists and dictionaries are shown by `show`. */
  function Str(v: Json, show: Json -> string): (r: string)
    ensures v.JStr? ==> r == v.s
    ensures v.JNum? ==> r == IntToString(v.n)
  {
    match v
    case JStr(s) => s
    case JNum(n) => IntToString(n)
    case JBool(b) => if b then "True" else "False"
    case JNull => "None"
    case _ => show(v)
  }

  /** A question dictionary with its "max" and "min" entries, where present, replaced by
      their string form. */
  function SliderStrings(f: map<string, Json>, show: Json -> string): map<string, Json>
  {
    var withMax := if "max" in f then f["max" := JStr(Str(f["max"], show))] else f;
    if "min" in withMax then withMax["min" := JStr(Str(withMax["min"], show))] else withMax
  }

  /** One step of make_slider_min_max_values_strings on one element of the list. A
      dictionary gets its bounds stringified. On any other element the `'max' in question`
      test either raises (a number, a boolean or null is not a container) or, when it
      holds, the subscript `question['max']` does (a string or list is not indexed by a
      string); an element passing both tests unharmed is left alone. */
  function StringifiedQuestion(q: Json, show: Json -> string): (r: Result<Json, string>)
    ensures r.Err? ==> r == Err("TypeError")
    ensures r.Ok? && q.JObj? ==> (r.value.JObj? && r.value.fields.Keys == q.fields.Keys
      && (forall k :: k in q.fields && k != "max" && k != "min" ==> r.value.fields[k] == q.fields[k])
      && ("max" in q.fields ==> r.value.fields["max"] == JStr(Str(q.fields["max"], show)))
      && ("min" in q.fields ==> r.value.fields["min"] == JStr(Str(q.fields["min"], show))))
    ensures r.Ok? && !q.JObj? ==> r.value == q
    ensures q.JObj? ==> r.Ok?
  {
    match q
    case JObj(f) => Ok(JObj(SliderStrings(f, show)))
    case JStr(s) => if Contains(s, "max") || Contains(s, "min") then Err("TypeError") else Ok(q)
    case JList(xs) => if JStr("max") in xs || JStr("min") in xs then Err("TypeError") else Ok(q)
    case _ => Err("TypeError")
  }

  /** A stringified question is left as it is by a second pass: the string form of a string
      is itself. */
  lemma StringifiedQuestionIdempotent(q: Json, show: Json -> string)
    requires StringifiedQuestion(q, show).Ok?
    ensures StringifiedQuestion(StringifiedQuestion(q, show).value, show) == StringifiedQuestion(q, show)
  {
    if q.JObj? {
      var f := StringifiedQuestion(q, show).value.fields;
      assert SliderStrings(f, show) == f;
    }
  }

  /** The whole list after the pass, or TypeError when some element makes it raise. */
  function Stringified(qs: seq<Json>, show: Json -> string): (r: Result<seq<Json>, string>)
    ensures r.Ok? <==> forall k :: 0 <= k < |qs| ==> StringifiedQuestion(qs[k], show).Ok?
    ensures r.Ok? ==> |r.value| == |qs| && forall k :: 0 <= k < |qs| ==> StringifiedQuestion(qs[k], show) == Ok(r.value[k])
    ensures r.Err? ==> r == Err("TypeError")
  {
    if |qs| == 0 then Ok([])
    else
      var before := Stringified(qs[..|qs| - 1], show);
      var last := StringifiedQuestion(qs[|qs| - 1], show);
      if before.Err? then before
      else if last.Err? then Err("TypeError")
      else Ok(before.value + [last.value])
  }

  /** Stringification is idempotent: applying it twice equals applying it once. */
  lemma StringifiedIdempotent(qs: seq<Json>, show: Json -> string)
    requires Stringified(qs, show).Ok?
    ensures Stringified(Stringified(qs, show).value, show) == Stringified(qs, show)
  {
    var once := Stringified(qs, show).value;
    forall k | 0 <= k < |once|
      ensures StringifiedQuestion(once[k], show) == Ok(once[k])
    {
      StringifiedQuestionIdempotent(qs[k], show);
    }
  }

  /** The list after the question at `k` raised: the ones before it are stringified and
      the rest are untouched. */
  predicate StoppedAt(before: seq<Json>, after: seq<Json>, k: nat, show: Json -> string)
  {
    k < |before| == |after| && StringifiedQuestion(before[k], show).Err?
    && (forall j :: 0 <= j < k ==> StringifiedQuestion(before[j], show) == Ok(after[j]))
    && after[k..] == before[k..]
  }

  /** make_slider_min_max_values_strings: the questions are stringified in place, in order.
      On success the list holds the stringified questions, the same number in the same
      order; when an element raises, the ones before it are already stringified and the rest
      are untouched. */
  method MakeSliderMinMaxValuesStrings(questions: array<Json>, show: Json -> string) returns (r: Result<(), string>)
    modifies questions
    ensures Stringified(old(questions[..]), show).Ok? ==> r.Ok? && questions[..] == Stringified(old(questions[..]), show).value
    ensures Stringified(old(questions[..]), show).Err? ==> (r == Err("TypeError")
      && exists k :: StoppedAt(old(questions[..]), questions[..], k, show))
  {
    var i := 0;
    while i < questions.Length
      invariant 0 <= i <= questions.Length
      invariant forall j :: 0 <= j < i ==> StringifiedQuestion(old(questions[j]), show) == Ok(questions[j])
      invariant questions[i..] == old(questions[i..])
    {
      assert questions[i] == old(questions[i]);
      var question := questions[i];
      match question {
        case JObj(f) => {
          var g := f;
          if "max" in g {
            g := g["max" := JStr(Str(g["max"], show))];
          }
          if "min" in g {
            g := g["min" := JStr(Str(g["min"], show))];
          }
          questions[i] := JObj(g);
        }
        case JStr(s) => {
          if Contains(s, "max") || Contains(s, "min") {
            assert StoppedAt(old(questions[..]), questions[..], i, show);
            return Err("TypeError");
          }
        }
        case JList(xs) => {
          if JStr("max") in xs || JStr("min") in xs {
            assert StoppedAt(old(questions[..]), questions[..], i, show);
            return Err("TypeError");
          }
        }
        case _ => {
          assert StoppedAt(old(questions[..]), questions[..], i, show);
          return Err("TypeError");
        }
      }
      i := i + 1;
    }
    r := Ok(());
  }

  /** The number of decoding attempts recursive_survey_content_json_decode allows. */
  const DecodeAttempts: nat := 100

  /** The message it raises when the attempts run out. */
  const CouldNotDecode := "could not decode json entity to list"

  /** Whether every backslash of `s` starts a two-character "\n" escape. */
  predicate NoStrayBackslash(s: string)
  {
    forall k :: 0 <= k < |s| && s[k] == '\\' ==> k + 1 < |s| && s[k + 1] == 'n'
  }

  /** Splitting on the two characters "\n", deleting every backslash from the pieces and
      joining with "\n" again: scanning from the left, a "\n" is kept and any other
      backslash dropped. */
  function Unescaped(s: string): (r: string)
    ensures NoStrayBackslash(r)
    decreases |s|
  {
    if |s| == 0 then ""
    else if |s| >= 2 && s[0] == '\\' && s[1] == 'n' then "\\n" + Unescaped(s[2..])
    else if s[0] == '\\' then Unescaped(s[1..])
    else [s[0]] + Unescaped(s[1..])
  }

  /** Text without stray backslashes has nothing to delete. */
  lemma {:induction false} UnescapedKeeps(s: string)
    requires NoStrayBackslash(s)
    ensures Unescaped(s) == s
    decreases |s|
  {
    if |s| >= 2 && s[0] == '\\' {
      assert NoStrayBackslash(s[2..]) by {
        forall k | 0 <= k < |s[2..]| && s[2..][k] == '\\'
          ensures k + 1 < |s[2..]| && s[2..][k + 1] == 'n'
        {
          assert s[k + 2] == '\\';
        }
      }
      UnescapedKeeps(s[2..]);
    } else if |s| > 0 {
      assert NoStrayBackslash(s[1..]) by {
        forall k | 0 <= k < |s[1..]| && s[1..][k] == '\\'
          ensures k + 1 < |s[1..]| && s[1..][k + 1] == 'n'
        {
          assert s[k + 1] == '\\';
        }
      }
      UnescapedKeeps(s[1..]);
    }
  }

  /** The text one attempt decodes: unescaped, then stripped of '"' at both ends; what is
      left has a "\n" escape for every backslash and no '"' at either end. */
  function Cleaned(s: string): (r: string)
    ensures NoStrayBackslash(r)
    ensures |r| > 0 ==> r[0] != '"' && r[|r| - 1] != '"'
  {
    StripKeepsEscapes(Unescaped(s));
    Strip(Unescaped(s), {'"'})
  }

  /** Stripping quotes leaves every "\n" escape whole. */
  lemma StripKeepsEscapes(s: string)
    requires NoStrayBackslash(s)
    ensures NoStrayBackslash(RStrip(s, {'"'}))
    ensures NoStrayBackslash(LStrip(RStrip(s, {'"'}), {'"'}))
  {
    var r := RStrip(s, {'"'});
    forall k | 0 <= k < |r| && r[k] == '\\'
      ensures k + 1 < |r| && r[k + 1] == 'n'
    {
      assert s[k] == '\\' && s[k + 1] == 'n';
    }
    var l := LStrip(r, {'"'});
    forall k | 0 <= k < |l| && l[k] == '\\'
      ensures k + 1 < |l| && l[k + 1] == 'n'
    {
      assert r[|r| - |l| + k] == '\\';
    }
  }

  /** Stripping the same characters twice strips nothing more. */
  lemma StripIdempotent(s: string, cs: set<char>)
    ensures Strip(Strip(s, cs), cs) == Strip(s, cs)
  {
    var r := RStrip(s, cs);
    var l := LStrip(r, cs);
    assert l == r[|r| - |l|..];
    assert RStrip(l, cs) == l;
  }

  /** Cleaning is idempotent, so an attempt after the first decodes the same text again. */
  lemma CleanedIdempotent(s: string)
    ensures Cleaned(Cleaned(s)) == Cleaned(s)
  {
    StripKeepsEscapes(Unescaped(s));
    UnescapedKeeps(Cleaned(s));
    StripIdempotent(Unescaped(s), {'"'});
  }

  /** What the first attempt decides: the decoder's ValueError, a list, or (for any other
      value) no list at all. */
  function FirstAttempt(jsonEntity: string, loads: string -> Option<Json>): (r: Result<seq<Json>, string>)
    ensures r.Ok? <==> loads(Cleaned(jsonEntity)).Some? && loads(Cleaned(jsonEntity)).value.JList?
    ensures r.Ok? ==> r.value == loads(Cleaned(jsonEntity)).value.items
    ensures loads(Cleaned(jsonEntity)).None? <==> r == Err("ValueError")
    ensures r.Err? ==> r.error == "ValueError" || r.error == CouldNotDecode
  {
    var decoded := loads(Cleaned(jsonEntity));
    if decoded.None? then Err("ValueError")
    else if decoded.value.JList? then Ok(decoded.value.items)
    else Err(CouldNotDecode)
  }

  /** recursive_survey_content_json_decode as written: each attempt cleans the text and
      decodes it until the result is a list; a decoder error propagates at once and the
      hundred-and-first attempt raises instead. The text is never replaced by what it
      decoded to, so every attempt after the first repeats it: the outcome is the first
      attempt's, made once or, when that is not a list, a hundred times. */
  method RecursiveSurveyContentJsonDecode(jsonEntity: string, loads: string -> Option<Json>)
    returns (r: Result<seq<Json>, string>, attempts: nat)
    ensures r == FirstAttempt(jsonEntity, loads)
    ensures 1 <= attempts <= DecodeAttempts
    ensures r == Err(CouldNotDecode) ==> attempts == DecodeAttempts
    ensures r != Err(CouldNotDecode) ==> attempts == 1
  {
    var count: int := DecodeAttempts;
    var entity := jsonEntity;
    var decoded: Option<Json> := None;
    attempts := 0;
    CleanedIdempotent(jsonEntity);
    while !(decoded.Some? && decoded.value.JList?)
      invariant 0 <= attempts <= DecodeAttempts && count == DecodeAttempts - attempts
      invariant attempts == 0 ==> entity == jsonEntity && decoded.None?
      invariant attempts > 0 ==> entity == Cleaned(jsonEntity) && decoded == loads(Cleaned(jsonEntity)) && decoded.Some?
      invariant attempts > 1 ==> !decoded.value.JList?
      decreases count
    {
      count := count - 1;
      if count < 0 {
        r := Err(CouldNotDecode);
        return;
      }
      entity := Cleaned(entity);
      decoded := loads(entity);
      attempts := attempts + 1;
      if decoded.None? {
        r := Err("ValueError");
        return;
      }
    }
    r := Ok(decoded.value.items);
  }

  /** The decoding evidently intended: an attempt that yields a string decodes that string
      next, up to the same number of attempts. */
  function IntendedDecode(jsonEntity: string, loads: string -> Option<Json>, budget: nat): (r: Result<seq<Json>, string>)
    ensures r.Err? ==> r.error == "ValueError" || r.error == CouldNotDecode
    decreases budget
  {
    if budget == 0 then Err(CouldNotDecode)
    else
      var decoded := loads(Cleaned(jsonEntity));
      if decoded.None? then Err("ValueError")
      else if decoded.value.JList? then Ok(decoded.value.items)
      else if decoded.value.JStr? then IntendedDecode(decoded.value.s, loads, budget - 1)
      else Err(CouldNotDecode)
  }

  /** Where the first attempt settles the matter, the intended decoding agrees with the
      code; it differs only by going on with a decoded string. */
  lemma IntendedAgreesOnFirstAttempt(jsonEntity: string, loads: string -> Option<Json>, budget: nat)
    requires budget > 0
    requires FirstAttempt(jsonEntity, loads) != Err(CouldNotDecode) || !loads(Cleaned(jsonEntity)).value.JStr?
    ensures IntendedDecode(jsonEntity, loads, budget) == FirstAttempt(jsonEntity, loads)
  {
  }

  /** A JSON string holding a list, with a space around it so that no quote is stripped,
      decodes to the string "[1]": the code then repeats that attempt a hundred times and
      raises, where decoding the string would have given the list. */
  lemma SpacedQuotedListNeverDecodes(loads: string -> Option<Json>)
    requires loads(" \"[1]\" ") == Some(JStr("[1]"))
    requires loads("[1]") == Some(JList([JNum(1)]))
    ensures FirstAttempt(" \"[1]\" ", loads) == Err(CouldNotDecode)
    ensures IntendedDecode(" \"[1]\" ", loads, DecodeAttempts) == Ok([JNum(1)])
  {
    CleanedSpacedList();
    CleanedList();
    assert IntendedDecode("[1]", loads, DecodeAttempts - 1) == Ok([JNum(1)]);
  }

  /** The spaced JSON string of the example has nothing to clean. */
  lemma CleanedSpacedList()
    ensures Cleaned(" \"[1]\" ") == " \"[1]\" "
  {
    CleanedPlain(" \"[1]\" ");
  }

  /** Nor has the list it holds. */
  lemma CleanedList()
    ensures Cleaned("[1]") == "[1]"
  {
    CleanedPlain("[1]");
  }

  /** Text without backslashes and without a quote at either end is already clean. */
  lemma CleanedPlain(t: string)
    requires forall k :: 0 <= k < |t| ==> t[k] != '\\'
    requires |t| > 0 ==> t[0] != '"' && t[|t| - 1] != '"'
    ensures Cleaned(t) == t
  {
    UnescapedKeeps(t);
  }

  /** The position of the survey with primary key `id`. */
  function SurveyIndex(rows: seq<Survey>, id: int): (r: Option<nat>)
    ensures r.Some? ==> r.value < |rows| && rows[r.value].id == id
    ensures r.None? ==> forall j :: 0 <= j < |rows| ==> rows[j].id != id
  {
    if |rows| == 0 then None
    else if rows[0].id == id then Some(0)
    else
      var rest := SurveyIndex(rows[1..], id);
      if rest.Some? then Some(rest.value + 1) else None
  }

  /** The content a save stores: the submitted text decoded as written, then stringified.
      It succeeds only when the cleaned text decodes to a list at once, keeps the number of
      questions, is already stringified (a second pass changes nothing), and a cleaned text
      that decodes to a JSON string is refused rather than decoded again. */
  function PreparedContent(content: string, loads: string -> Option<Json>, show: Json -> string): (r: Result<seq<Json>, string>)
    ensures r.Ok? ==> (loads(Cleaned(content)).Some? && loads(Cleaned(content)).value.JList?
      && |r.value| == |loads(Cleaned(content)).value.items|)
    ensures r.Ok? ==> Stringified(r.value, show) == r
    ensures loads(Cleaned(content)).Some? && loads(Cleaned(content)).value.JStr? ==> r == Err(CouldNotDecode)
    ensures r.Err? ==> r.error == "ValueError" || r.error == CouldNotDecode || r.error == "TypeError"
  {
    var decoded := FirstAttempt(content, loads);
    if decoded.Err? then Err(decoded.error)
    else
      var stringified := Stringified(decoded.value, show);
      assert stringified.Ok? ==> Stringified(stringified.value, show) == stringified by {
        if stringified.Ok? { StringifiedIdempotent(decoded.value, show); }
      }
      stringified
  }

  /** Decoding the submitted content as recursive_survey_content_json_decode does and
      stringifying it in place on a new list. */
  method PrepareContent(content: string, loads: string -> Option<Json>, show: Json -> string)
    returns (r: Result<seq<Json>, string>)
    ensures r == PreparedContent(content, loads, show)
  {
    var decoded, _ := RecursiveSurveyContentJsonDecode(content, loads);
    if decoded.Err? {
      return Err(decoded.error);
    }
    var items := decoded.value;
    var questions := new Json[|items|](k requires 0 <= k < |items| => items[k]);
    assert questions[..] == items;
    var stringified := MakeSliderMinMaxValuesStrings(questions, show);
    if stringified.Err? {
      return Err("TypeError");
    }
    r := Ok(questions[..]);
  }

  /** What saving a survey answers, and the survey it saves when it answers 201. A missing
      request value is a 400, an exception a 500; a tracking survey the validator finds more
      than one error in is refused with 400 before anything is saved. */
  function SurveyUpdate(s: Survey, content: Option<string>, timings: Option<string>, settings: Option<string>,
                        loads: string -> Option<Json>, show: Json -> string,
                        validate: seq<Json> -> seq<string>, dumps: seq<Json> -> string): (r: (int, Option<Survey>))
    ensures r.0 == 201 <==> r.1.Some?
    ensures r.0 in {201, 400, 500}
    ensures r.1.Some? ==> (timings.Some? && settings.Some?
      && r.1.value == s.(content := r.1.value.content, timings := timings.value, settings := settings.value))
  {
    if content.None? then (400, None)
    else
      var stringified := PreparedContent(content.value, loads, show);
      if stringified.Err? then (500, None)
      else if s.surveyType == TrackingSurvey && |validate(stringified.value)| > 1 then (400, None)
      else if timings.None? || settings.None? then (400, None)
      else (201, Some(s.(content := dumps(stringified.value), timings := timings.value, settings := settings.value)))
  }

  /** Once the content decodes and stringifies and every value is supplied, the answer is
      400 exactly for a tracking survey with more than one validation error, and 201
      otherwise, with the stringified content saved. */
  lemma UpdateRule(s: Survey, content: string, timings: string, settings: string,
                   loads: string -> Option<Json>, show: Json -> string,
                   validate: seq<Json> -> seq<string>, dumps: seq<Json> -> string)
    requires PreparedContent(content, loads, show).Ok?
    ensures var xs := PreparedContent(content, loads, show).value;
      var r := SurveyUpdate(s, Some(content), Some(timings), Some(settings), loads, show, validate, dumps);
      (r.0 == 400 <==> s.surveyType == TrackingSurvey && |validate(xs)| > 1)
      && (r.0 != 400 ==> r.0 == 201 && r.1.value.content == dumps(xs))
  {
  }

  /** update_survey: an unknown survey is a 404; otherwise the survey is answered and saved
      as SurveyUpdate says, and no other survey changes. */
  method UpdateSurvey(table: SurveyTable, surveyId: int, content: Option<string>, timings: Option<string>,
                      settings: Option<string>, loads: string -> Option<Json>, show: Json -> string,
                      validate: seq<Json> -> seq<string>, dumps: seq<Json> -> string)
    returns (status: int)
    modifies table
    ensures SurveyIndex(old(table.rows), surveyId).None? ==> status == 404 && table.rows == old(table.rows)
    ensures SurveyIndex(old(table.rows), surveyId).Some? ==>
      var i := SurveyIndex(old(table.rows), surveyId).value;
      var u := SurveyUpdate(old(table.rows)[i], content, timings, settings, loads, show, validate, dumps);
      status == u.0 && table.rows == (if u.1.Some? then old(table.rows)[i := u.1.value] else old(table.rows))
  {
    var index := SurveyIndex(table.rows, surveyId);
    if index.None? {
      return 404;
    }
    var survey := table.rows[index.value];
    if content.None? {
      return 400;
    }
    var prepared := PrepareContent(content.value, loads, show);
    if prepared.Err? {
      return 500;
    }
    var newContent := prepared.value;
    if survey.surveyType == TrackingSurvey {
      var errors := validate(newContent);
      if |errors| > 1 {
        return 400;
      }
    }
    if timings.None? || settings.None? {
      return 400;
    }
    table.rows := table.rows[index.value := survey.(content := dumps(newContent), timings := timings.value, settings := settings.value)];
    status := 201;
  }
}
