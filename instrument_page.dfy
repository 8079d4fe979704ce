/** src/pages/instrument.tsx: the page of one instrument. Its effect checks
    the id from the URL, keeps the URL canonical once the instrument is
    known and otherwise fetches the instrument; its render picks the 404
    page, the loading text, the edit form or a refusal, or the display. */
module InstrumentPage {
  import opened Text
  import opened Options
  import opened Types
  import opened UriEncoding
  import opened Paths
  import opened AccessControl
  import opened UseAuth
  import opened ServerRoutesMock

  const LoadingMessage := "...Loading"

  /** /\/edit\/?$/.test(pathname) */
  predicate IsEditPage(pathname: string) {
    EndsWith(pathname, "/edit") || EndsWith(pathname, "/edit/")
  }

  /** What one run of the effect does */
  datatype EffectDecision =
    | MarkNotFound         // the id is not all digits
    | Redirect(path: string)  // navigate(path, { replace: true })
    | Stay                 // the loaded instrument is the one asked for and the path is canonical
    | Fetch(id: nat)       // reset the state and request the instrument

  /** The branches of the effect, in order: the `^[0-9]+$` test, the loaded
      instrument against Number(instrumentId), the canonical path */
  function Decide(instrumentId: string, pathname: string, instrument: Option<Instrument>): EffectDecision {
    if !IsDigitString(instrumentId) then MarkNotFound
    else if instrument.Some? && instrument.value.id == DigitsValue(instrumentId) then
      var canonicalPath := GetInstrumentPath(instrument.value, IsEditPage(pathname));
      if pathname != canonicalPath then Redirect(canonicalPath) else Stay
    else Fetch(DigitsValue(instrumentId))
  }

  /** A string ending in "/<segment>/", where the segment holds no '/',
      ends in "/edit/" exactly when the segment is "edit" */
  lemma EditSlashSuffix(s: string, segment: string)
    requires '/' !in segment && |s| >= |segment| + 2
    requires s[|s| - 1] == '/' && s[|s| - 2 - |segment|] == '/'
    requires s[|s| - 1 - |segment|..|s| - 1] == segment
    ensures EndsWith(s, "/edit/") <==> segment == "edit"
  {
    var n, m := |s|, |segment|;
    if segment == "edit" {
      assert s[n - 6..] == [s[n - 6]] + s[n - 5..n - 1] + [s[n - 1]];
      assert [s[n - 6]] + s[n - 5..n - 1] + [s[n - 1]] == "/" + "edit" + "/";
    } else if n >= 6 {
      var t := s[n - 6..];
      if m >= 5 {
        assert t[0] == segment[m - 5];
        assert segment[m - 5] in segment;
      } else if m == 4 {
        assert t[1..5] == segment;
        assert "/edit/"[1..5] == "edit";
      } else {
        assert t[4 - m] == '/';
      }
    }
  }

  /** A path of the shape .../<segment>/ ends in "/edit/" exactly when the
      segment is "edit", and never ends in "/edit" */
  lemma EditSuffixShape(x: string, segment: string)
    requires '/' !in segment
    ensures EndsWith(x + "/" + segment + "/", "/edit/") <==> segment == "edit"
    ensures !EndsWith(x + "/" + segment + "/", "/edit")
  {
    var s := x + "/" + segment + "/";
    var n := |s|;
    assert s[n - 1] == '/';
    if n >= 5 {
      assert s[n - 5..][4] == '/';
    }
    assert s[n - 1 - |segment|..n - 1] == segment;
    EditSlashSuffix(s, segment);
  }

  /** A canonical path is an edit page when it is the edit path, or when
      the instrument is named "edit" (its display path then ends in "/edit/") */
  lemma IsEditPageOfInstrumentPath(instrument: Instrument, isEditPage: bool)
    ensures IsEditPage(GetInstrumentPath(instrument, isEditPage)) <==> isEditPage || instrument.name == "edit"
  {
    var p := GetInstrumentPath(instrument, isEditPage);
    var x := "/instruments/" + IntToString(instrument.id);
    var encodedName := EncodeUriComponent(instrument.name);
    if isEditPage {
      assert p == (x + "/" + encodedName) + "/edit/";
      assert p[|p| - 6..] == "/edit/";
    } else {
      EncodeHasNoSlash(instrument.name);
      assert p == x + "/" + encodedName + "/";
      EditSuffixShape(x, encodedName);
      assert forall i :: 0 <= i < |"edit"| ==> Unreserved("edit"[i]);
      EncodeUnreservedVerbatim("edit");
      if encodedName == "edit" {
        EncodeInjective(instrument.name, "edit");
      }
    }
  }

  /** The redirect converges: from any path, the canonical path it leads to
      is kept, except that an instrument named "edit" is sent on once more,
      to its edit path, which is then kept */
  lemma RedirectSettles(instrumentId: string, pathname: string, instrument: Instrument)
    requires IsDigitString(instrumentId) && instrument.id == DigitsValue(instrumentId)
    ensures var target := GetInstrumentPath(instrument, IsEditPage(pathname));
      if IsEditPage(pathname) || instrument.name != "edit" then
        Decide(instrumentId, target, Some(instrument)) == Stay
      else
        Decide(instrumentId, target, Some(instrument)) == Redirect(GetInstrumentPath(instrument, true)) &&
        Decide(instrumentId, GetInstrumentPath(instrument, true), Some(instrument)) == Stay
  {
    IsEditPageOfInstrumentPath(instrument, IsEditPage(pathname));
    IsEditPageOfInstrumentPath(instrument, true);
  }

  /** The canonical display and edit paths are left as they are (for an
      instrument not named "edit") */
  lemma CanonicalPathIsKept(instrumentId: string, instrument: Instrument, isEditPage: bool)
    requires IsDigitString(instrumentId) && instrument.id == DigitsValue(instrumentId)
    requires isEditPage || instrument.name != "edit"
    ensures Decide(instrumentId, GetInstrumentPath(instrument, isEditPage), Some(instrument)) == Stay
  {
    IsEditPageOfInstrumentPath(instrument, isEditPage);
  }

  /** The display path of an instrument named "edit" is taken for its edit
      page and redirected to .../edit/edit/, so that instrument cannot be
      displayed */
  lemma InstrumentNamedEditIsNeverDisplayed(instrumentId: string, instrument: Instrument)
    requires IsDigitString(instrumentId) && instrument.id == DigitsValue(instrumentId)
    requires instrument.name == "edit"
    ensures IsEditPage(GetInstrumentPath(instrument, false))
    ensures Decide(instrumentId, GetInstrumentPath(instrument, false), Some(instrument))
      == Redirect(GetInstrumentPath(instrument, true))
  {
    IsEditPageOfInstrumentPath(instrument, false);
    IsEditPageOfInstrumentPath(instrument, true);
    EditPathExtendsDisplayPath(instrument);
  }

  /** A request made by the effect, and whether its cancel has been called */
  datatype FetchRequest = FetchRequest(id: nat, cancelled: bool)

  function CancelFetch(fetches: seq<FetchRequest>, cleanup: Option<nat>): (r: seq<FetchRequest>)
    requires cleanup.Some? ==> cleanup.value < |fetches|
    ensures |r| == |fetches|
  {
    if cleanup.Some? then fetches[cleanup.value := fetches[cleanup.value].(cancelled := true)] else fetches
  }

  /** What the page shows */
  datatype View =
    | NotFoundPage
    | LoadingText(message: string)
    | EditForm(instrument: Instrument)
    | NotOwner(backPath: string, name: string)       // "You can only edit instruments that you created."
    | LoginRequired(backPath: string, name: string)  // "You need to log in before you can edit your instruments."
    | Display(instrument: Instrument)

  /** The render: not found, then loading, then on an edit page the choice
      by authentication state, else the display */
  function RenderPage(instrumentExists: bool, instrument: Option<Instrument>, loadingMessage: string,
                      isEditPage: bool, auth: Auth): View
  {
    if !instrumentExists then NotFoundPage
    else if instrument.None? then LoadingText(loadingMessage)
    else if isEditPage then
      match auth
      case Loading => LoadingText(loadingMessage)
      case Authenticated(user) =>
        if CanEditOrDelete(user, instrument.value.userId) then EditForm(instrument.value)
        else NotOwner(GetDisplayPath(instrument.value), instrument.value.name)
      case _ => LoginRequired(GetDisplayPath(instrument.value), instrument.value.name)
    else Display(instrument.value)
  }

  /** When each view is shown. The form is shown only to a signed-in user
      allowed to change the instrument, and both refusals link back to the
      display page. */
  lemma RenderPageCases(instrumentExists: bool, instrument: Option<Instrument>, loadingMessage: string,
                        isEditPage: bool, auth: Auth)
    ensures var v := RenderPage(instrumentExists, instrument, loadingMessage, isEditPage, auth);
      (v.NotFoundPage? <==> !instrumentExists) &&
      (v.LoadingText? <==> instrumentExists && (instrument.None? || (isEditPage && auth.Loading?))) &&
      (v.LoadingText? ==> v.message == loadingMessage) &&
      (v.EditForm? <==> instrumentExists && instrument.Some? && isEditPage && auth.Authenticated? &&
                        CanEditOrDelete(auth.user, instrument.value.userId)) &&
      (v.NotOwner? <==> instrumentExists && instrument.Some? && isEditPage && auth.Authenticated? &&
                        !CanEditOrDelete(auth.user, instrument.value.userId)) &&
      (v.LoginRequired? <==> instrumentExists && instrument.Some? && isEditPage &&
                             (auth.Errored? || auth.Unauthenticated?)) &&
      (v.Display? <==> instrumentExists && instrument.Some? && !isEditPage) &&
      (v.EditForm? || v.Display? ==> v.instrument == instrument.value) &&
      (v.NotOwner? || v.LoginRequired? ==> v.backPath == GetInstrumentPath(instrument.value, false))
  {
  }

  /** The page component: its three pieces of state, the navigations and
      requests its effect has made, and the cancel its last run returned */
  class InstrumentPageState {
    var loadingMessage: string
    var instrument: Option<Instrument>
    var instrumentExists: bool
    var navigations: seq<string>
    var fetches: seq<FetchRequest>
    var cleanup: Option<nat>

    ghost predicate Valid()
      reads this
    {
      cleanup.Some? ==> cleanup.value < |fetches|
    }

    constructor ()
      ensures Valid()
      ensures loadingMessage == LoadingMessage && instrument == None && instrumentExists
      ensures navigations == [] && fetches == [] && cleanup == None
    {
      loadingMessage := LoadingMessage;
      instrument := None;
      instrumentExists := true;
      navigations := [];
      fetches := [];
      cleanup := None;
    }

    /** The effect, run on mount and whenever the id, the instrument or the
        path changes: the previous run's cancel first, then the body */
    method RunEffect(instrumentId: string, pathname: string)
      requires Valid()
      modifies this
      ensures Valid()
      ensures var d := Decide(instrumentId, pathname, old(instrument));
        var rest := CancelFetch(old(fetches), old(cleanup));
        match d
        case MarkNotFound =>
          !instrumentExists && instrument == old(instrument) && loadingMessage == old(loadingMessage) &&
          navigations == old(navigations) && fetches == rest && cleanup == None
        case Redirect(path) =>
          navigations == old(navigations) + [path] && fetches == rest && cleanup == None &&
          instrument == old(instrument) && instrumentExists == old(instrumentExists) && loadingMessage == old(loadingMessage)
        case Stay =>
          navigations == old(navigations) && fetches == rest && cleanup == None &&
          instrument == old(instrument) && instrumentExists == old(instrumentExists) && loadingMessage == old(loadingMessage)
        case Fetch(id) =>
          loadingMessage == LoadingMessage && instrument == None && instrumentExists &&
          navigations == old(navigations) && fetches == rest + [FetchRequest(id, false)] && cleanup == Some(|rest|)
    {
      fetches := CancelFetch(fetches, cleanup);
      cleanup := None;
      if !IsDigitString(instrumentId) {
        instrumentExists := false;
        return;
      }
      if instrument.Some? && instrument.value.id == DigitsValue(instrumentId) {
        var canonicalPath := GetInstrumentPath(instrument.value, IsEditPage(pathname));
        if pathname != canonicalPath {
          navigations := navigations + [canonicalPath];
        }
        return;
      }
      loadingMessage := LoadingMessage;
      instrument := None;
      instrumentExists := true;
      fetches := fetches + [FetchRequest(DigitsValue(instrumentId), false)];
      cleanup := Some(|fetches| - 1);
    }

    /** onSuccess of request k; a cancelled request delivers nothing */
    method FetchSucceeded(k: nat, data: Instrument)
      requires Valid() && k < |fetches|
      modifies this
      ensures Valid()
      ensures instrument == if old(fetches[k].cancelled) then old(instrument) else Some(data)
      ensures loadingMessage == old(loadingMessage) && instrumentExists == old(instrumentExists)
      ensures navigations == old(navigations) && fetches == old(fetches) && cleanup == old(cleanup)
    {
      if !fetches[k].cancelled {
        instrument := Some(data);
      }
    }

    /** onError of request k: a 404 means the instrument does not exist,
        any other failure shows its message in place of the loading text */
    method FetchFailed(k: nat, uiErrorMessage: string, status: Option<nat>)
      requires Valid() && k < |fetches|
      modifies this
      ensures Valid()
      ensures !old(fetches[k].cancelled) && status == Some(404) ==>
        !instrumentExists && loadingMessage == old(loadingMessage)
      ensures !old(fetches[k].cancelled) && status != Some(404) ==>
        loadingMessage == uiErrorMessage && instrumentExists == old(instrumentExists)
      ensures old(fetches[k].cancelled) ==>
        loadingMessage == old(loadingMessage) && instrumentExists == old(instrumentExists)
      ensures instrument == old(instrument) && navigations == old(navigations)
      ensures fetches == old(fetches) && cleanup == old(cleanup)
    {
      if !fetches[k].cancelled {
        if status == Some(404) {
          instrumentExists := false;
        } else {
          loadingMessage := uiErrorMessage;
        }
      }
    }

    /** The page unmounts: the last run's cancel is called */
    method Unmount()
      requires Valid()
      modifies this
      ensures Valid()
      ensures fetches == CancelFetch(old(fetches), old(cleanup)) && cleanup == None
      ensures loadingMessage == old(loadingMessage) && instrument == old(instrument)
      ensures instrumentExists == old(instrumentExists) && navigations == old(navigations)
    {
      fetches := CancelFetch(fetches, cleanup);
      cleanup := None;
    }

    function Render(pathname: string, auth: Auth): View
      reads this
    {
      RenderPage(instrumentExists, instrument, loadingMessage, IsEditPage(pathname), auth)
    }
  }

  /** An id that is not all digits, such as "-2" or "Flute", shows the 404
      page at once and requests nothing */
  method VisitMalformedId(instrumentId: string, pathname: string, auth: Auth) returns (view: View, requests: nat)
    requires !IsDigitString(instrumentId)
    ensures view == NotFoundPage && requests == 0
  {
    var page := new InstrumentPageState();
    page.RunEffect(instrumentId, pathname);
    view := page.Render(pathname, auth);
    requests := |page.fetches|;
  }

  /** The canonical display path of instrument 0, "Flute" */
  lemma FlutePath(flute: Instrument)
    requires flute.id == 0 && flute.name == "Flute"
    ensures GetInstrumentPath(flute, false) == "/instruments/0/Flute/"
  {
    var idText, encoded := IntToString(flute.id), EncodeUriComponent(flute.name);
    assert idText == "0" by {
      assert DigitChar(0) == '0';
    }
    assert encoded == "Flute" by {
      assert forall i :: 0 <= i < |"Flute"| ==> Unreserved("Flute"[i]);
      EncodeUnreservedVerbatim("Flute");
    }
    assert GetInstrumentPath(flute, false) == "/instruments/" + idText + "/" + encoded + "/";
    assert "/instruments/" + "0" + "/" + "Flute" + "/" == "/instruments/0/Flute/";
  }

  /** The three runs of the effect on /instruments/0/wrong-name/: fetch,
      then redirect to the canonical path, then stay there */
  lemma WrongNameDecisions(flute: Instrument, pathname: string)
    requires flute.id == 0 && flute.name == "Flute" && pathname == "/instruments/0/wrong-name/"
    ensures Decide("0", pathname, None) == Fetch(0)
    ensures Decide("0", pathname, Some(flute)) == Redirect("/instruments/0/Flute/")
    ensures Decide("0", "/instruments/0/Flute/", Some(flute)) == Stay
    ensures !IsEditPage("/instruments/0/Flute/")
  {
    assert IsDigitString("0") && DigitsValue("0") == 0;
    assert !IsEditPage(pathname) by {
      assert pathname[|pathname| - 5..] == "name/";
      assert pathname[|pathname| - 6..] == "-name/";
    }
    FlutePath(flute);
    assert pathname != "/instruments/0/Flute/" by {
      assert pathname[15] == 'w' && "/instruments/0/Flute/"[15] == 'F';
    }
    CanonicalPathIsKept("0", flute, false);
    IsEditPageOfInstrumentPath(flute, false);
  }

  /** /instruments/0/wrong-name/: the instrument is fetched, the path is
      replaced by /instruments/0/Flute/, and the page then shows the
      instrument without navigating again */
  method VisitWrongName(flute: Instrument, auth: Auth) returns (navigations: seq<string>, view: View, requests: nat)
    requires flute.id == 0 && flute.name == "Flute"
    ensures navigations == ["/instruments/0/Flute/"]
    ensures view == Display(flute) && requests == 1
  {
    var pathname := "/instruments/0/wrong-name/";
    var canonicalPath := "/instruments/0/Flute/";
    WrongNameDecisions(flute, pathname);
    var page := new InstrumentPageState();
    page.RunEffect("0", pathname);
    assert page.fetches == [FetchRequest(0, false)];
    page.FetchSucceeded(0, flute);
    page.RunEffect("0", pathname);
    assert page.navigations == [canonicalPath];
    page.RunEffect("0", canonicalPath);
    navigations := page.navigations;
    view := page.Render(canonicalPath, auth);
    requests := |page.fetches|;
  }

  /** A well-formed id that no instrument of the mock data has, as in
      /instruments/7000/: the instrument is requested from the mock server,
      which answers 404, and the page shows the 404 page. The id is sent
      as its decimal text, and `number` is how the server reads it back. */
  method VisitUnknownId(apiRoot: string, number: string -> JsNumber, instrumentId: string, pathname: string,
                        auth: Auth, uiErrorMessage: string)
    returns (response: Response, view: View, requests: nat)
    requires IsDigitString(instrumentId)
    requires number(NatToString(DigitsValue(instrumentId))) == Integer(DigitsValue(instrumentId))
    requires forall k :: 0 <= k < |MockInstruments| ==> MockInstruments[k].id != DigitsValue(instrumentId)
    ensures response == Response(404, NoBody)
    ensures view == NotFoundPage && requests == 1
  {
    var page := new InstrumentPageState();
    page.RunEffect(instrumentId, pathname);
    var idText := NatToString(page.fetches[0].id);
    NatToStringIsDigits(page.fetches[0].id);
    assert IsSegment(idText) && idText != "all" by {
      assert IsDigitString(idText) && IsDigit(idText[0]);
      assert "all"[0] == 'a' && !IsDigit('a');
    }
    response := Respond(MOCK_DATA, apiRoot, number, Request(InstrumentsEndpoint(apiRoot) + "/" + idText, map[]));
    InstrumentByIdResponse(MOCK_DATA, apiRoot, number, idText, map[]);
    page.FetchFailed(0, uiErrorMessage, Some(response.status));
    view := page.Render(pathname, auth);
    requests := |page.fetches|;
  }
}
