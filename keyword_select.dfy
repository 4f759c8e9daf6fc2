/**
 * Keyword selection (app/create/select/page.tsx): the selected keyword and an
 * error message; "continue" either reports a missing selection or yields the
 * route of the generation page. URL encoding is a parameter of the model.
 */
module KeywordSelect {
  import opened Wrappers

  datatype KeywordOption = KeywordOption(id: string, labelText: string, description: string)

  const KeywordOptions: seq<KeywordOption> := [
    KeywordOption("campfire-story", "Campfire Story", "밤공기를 가르는 목소리와 장작 타는 소리를 담아요."),
    KeywordOption("dawn-chorus", "Dawn Chorus", "새벽녘 새소리와 함께 시작되는 첫 트랙."),
    KeywordOption("city-echo", "City Echo", "도시의 반짝이는 하루를 감싸는 리듬.")
  ]

  const MissingKeywordError: string := "키워드를 선택해 주세요."

  const GenerateRoute: string := "/create/loading/generate?keyword="

  /** The selection the page starts with: the `keyword` query parameter, or "" when absent. */
  function InitialKeyword(keywordParam: Option<string>): (k: string)
    ensures keywordParam.Some? ==> k == keywordParam.value
    ensures keywordParam.None? ==> k == ""
  {
    keywordParam.GetOr("")
  }

  /** Whether an option card is shown as selected. */
  predicate IsActive(option: KeywordOption, selected: string)
    ensures IsActive(option, selected) && option in KeywordOptions ==> selected != ""
    ensures IsActive(option, selected) ==> selected == option.id
  {
    option.id == selected
  }

  /** The option ids are distinct, so at most one card is shown as selected. */
  lemma AtMostOneActive(selected: string, i: int, j: int)
    requires 0 <= i < |KeywordOptions| && 0 <= j < |KeywordOptions|
    requires IsActive(KeywordOptions[i], selected) && IsActive(KeywordOptions[j], selected)
    ensures i == j
  {
  }

  /** The route for a selection, `encode` standing for encodeURIComponent. */
  function RouteFor(selected: string, encode: string -> string): (route: string)
    ensures |route| >= |GenerateRoute| && route[..|GenerateRoute|] == GenerateRoute
    ensures route[|GenerateRoute|..] == encode(selected)
  {
    GenerateRoute + encode(selected)
  }

  /** With an injective encoding, the route determines the keyword it was built from. */
  lemma RouteDeterminesKeyword(a: string, b: string, encode: string -> string)
    requires forall x, y :: encode(x) == encode(y) ==> x == y
    requires RouteFor(a, encode) == RouteFor(b, encode)
    ensures a == b
  {
    assert RouteFor(a, encode)[|GenerateRoute|..] == RouteFor(b, encode)[|GenerateRoute|..];
  }

  class SelectState {
    var selectedKeyword: string
    var error: Option<string>

    /** The only error is the missing-keyword message, and it is shown only while nothing is selected. */
    ghost predicate Valid()
      reads this
    {
      error.Some? ==> error.value == MissingKeywordError && selectedKeyword == ""
    }

    constructor (keywordParam: Option<string>)
      ensures Valid()
      ensures selectedKeyword == InitialKeyword(keywordParam) && error.None?
    {
      selectedKeyword := keywordParam.GetOr("");
      error := None;
    }

    /** handleSelect: select `keywordId` and clear any error. */
    method Select(keywordId: string)
      requires Valid()
      modifies this
      ensures Valid()
      ensures selectedKeyword == keywordId && error.None?
    {
      selectedKeyword := keywordId;
      error := None;
    }

    /**
     * handleContinue: with nothing selected, set the error and stay; otherwise
     * navigate to the generation page for the selection. The selection is not
     * checked against the option list, and a previous error is left as it is.
     */
    method Continue(encode: string -> string) returns (route: Option<string>)
      requires Valid()
      modifies this
      ensures Valid()
      ensures selectedKeyword == old(selectedKeyword)
      ensures old(selectedKeyword) == "" ==> route.None? && error == Some(MissingKeywordError)
      ensures old(selectedKeyword) != "" ==>
        route == Some(RouteFor(old(selectedKeyword), encode)) && error == old(error)
    {
      if selectedKeyword == "" {
        error := Some(MissingKeywordError);
        return None;
      }
      route := Some(GenerateRoute + encode(selectedKeyword));
    }
  }

  /** A keyword taken from the query string that is not one of the options still leads to generation. */
  method UnlistedKeywordScenario() returns (route: Option<string>)
    ensures route == Some(GenerateRoute + "lofi")
  {
    var page := new SelectState(Some("lofi"));
    route := page.Continue(s => s);
  }
}
