/** src/server_routes.mock.ts: the in-memory API the front end is developed
    and tested against. A database seeded from MOCK_DATA, and an ordered
    list of GET handlers of which the first whose path matches answers.
    Responses are reduced to a status and a body; building them with msw
    and its headers is not modelled. */
module ServerRoutesMock {
  import opened Text
  import opened Options
  import opened Types
  import Api

  const UserId0 := "google-oauth2|1337"
  const UserId1 := "google-oauth2|12345"

  /** The shape of MOCK_DATA and of the database */
  datatype MockData = MockData(categories: seq<Category>, instruments: seq<Instrument>, users: seq<User>)

  const MockCategories: seq<Category> := [
    Category(0, "Winds", "winds", 3, "Move air, make noise",
             "This is a longer description of wind instruments."),
    Category(1, "Percussion", "percussion", 300, "Hit stuff",
             "This is a longer description of percussion instruments."),
    Category(2, "Strings", "strings", 72, "Wobbling cords",
             "This is a longer description of stringed instruments.")
  ]

  const ImageRoot := "https://upload.wikimedia.org/wikipedia/commons/thumb/"

  const MockInstruments: seq<Instrument> := [
    Instrument(0, 0, UserId0, "Flute", "Flute summary", "Long description of flutes.",
               ImageRoot + "f/f7/Western_concert_flute_%28Yamaha%29.jpg/442px-Western_concert_flute_%28Yamaha%29.jpg"),
    Instrument(1, 0, UserId1, "Clarinet", "Clarinet summary", "Long description of clarinets.",
               ImageRoot + "2/20/Clarinet-rotate.png/466px-Clarinet-rotate.png"),
    Instrument(2, 1, UserId0, "Timpani", "Timpani summary", "Long description of timpani.",
               ImageRoot + "a/a8/HardtkePauken.jpg/640px-HardtkePauken.jpg"),
    Instrument(3, 1, UserId1, "Marimba", "Marimba summary", "Long description of marimbas.",
               ImageRoot + "2/2d/Classical_Marimba_player.jpg/640px-Classical_Marimba_player.jpg"),
    Instrument(4, 2, UserId0, "Double Bass", "Double bass summary", "Long description of double basses.",
               ImageRoot + "b/b7/Leandre_Gramss_double_double_bass_05.jpg/400px-Leandre_Gramss_double_double_bass_05.jpg"),
    Instrument(5, 2, UserId1, "Guitar", "Guitar summary", "Long description of guitars.",
               ImageRoot + "9/9d/Front_of_a_finished_Doc_Watson_Gallagher_guitar.jpg/400px-Front_of_a_finished_Doc_Watson_Gallagher_guitar.jpg"),
    Instrument(6, 2, UserId0, "Harp", "Harp summary", "Long description of harps.",
               ImageRoot + "3/36/Pedal_Harp_MET_DT698.jpg/412px-Pedal_Harp_MET_DT698.jpg")
  ]

  /** The users carry no roles claim */
  const MockUsers: seq<User> := [User("Nonny Mouse", UserId0, Undefined), User("No Body", UserId1, Undefined)]

  const MOCK_DATA := MockData(MockCategories, MockInstruments, MockUsers)

  /** The value of Number(s) as the id lookup sees it: an integer, or
      anything that equals no integer (a fraction, NaN, an infinity) */
  datatype JsNumber = Integer(value: int) | NonInteger

  /** A GET request: the URL's path and its query parameters (the first
      value of each name) */
  datatype Request = Request(path: string, query: map<string, string>)

  datatype Body =
    | NoBody
    | CategoriesBody(categories: seq<Category>)
    | CategoryBody(category: Category)
    | InstrumentsBody(instruments: seq<Instrument>)
    | InstrumentBody(instrument: Instrument)
    | ErrorBody(error: string)

  /** A response from one of the handlers, or none when no handler matches */
  datatype Response = Response(status: nat, body: Body) | Unhandled

  const MissingIdError := "An instrument ID, category ID, or \"all\" is required"
  const NotIntegerError := "Category ID must be an integer."

  /** ENDPOINTS.instruments */
  function InstrumentsEndpoint(apiRoot: string): string {
    apiRoot + "/instruments"
  }

  /** A `:param` path segment: non-empty and without '/' */
  predicate IsSegment(s: string) {
    s != [] && '/' !in s
  }

  /** The handler a path reaches, trying them in their order */
  datatype Route =
    | CategoriesAll
    | CategoryBySlug(slug: string)
    | InstrumentsAll
    | InstrumentById(id: string)
    | InstrumentsByCategory
    | Fallback
    | NoRoute

  function MatchRoute(apiRoot: string, path: string): Route {
    var categories := Api.CategoriesEndpoint(apiRoot);
    var instruments := InstrumentsEndpoint(apiRoot);
    if path == categories + "/all" then CategoriesAll
    else if StartsWith(path, categories + "/") && IsSegment(path[|categories| + 1..]) then
      CategoryBySlug(path[|categories| + 1..])
    else if path == instruments + "/all" then InstrumentsAll
    else if StartsWith(path, instruments + "/") && IsSegment(path[|instruments| + 1..]) then
      InstrumentById(path[|instruments| + 1..])
    else if path == instruments then InstrumentsByCategory
    else if StartsWith(path, apiRoot + "/") then Fallback
    else NoRoute
  }

  /** The first category with the given slug, as an index */
  function FindCategoryBySlug(categories: seq<Category>, slug: string): (r: Option<nat>)
    ensures r.Some? ==>
      r.value < |categories| && categories[r.value].slug == slug &&
      forall j :: 0 <= j < r.value ==> categories[j].slug != slug
    ensures r.None? ==> forall j :: 0 <= j < |categories| ==> categories[j].slug != slug
  {
    if categories == [] then None
    else if categories[0].slug == slug then Some(0)
    else
      match FindCategoryBySlug(categories[1..], slug)
      case None => None
      case Some(k) => Some(k + 1)
  }

  /** The first instrument whose id equals the number, as an index */
  function FindInstrumentById(instruments: seq<Instrument>, n: JsNumber): (r: Option<nat>)
    ensures r.Some? ==>
      r.value < |instruments| && n == Integer(instruments[r.value].id) &&
      forall j :: 0 <= j < r.value ==> n != Integer(instruments[j].id)
    ensures r.None? ==> forall j :: 0 <= j < |instruments| ==> n != Integer(instruments[j].id)
  {
    if instruments == [] then None
    else if n == Integer(instruments[0].id) then Some(0)
    else
      match FindInstrumentById(instruments[1..], n)
      case None => None
      case Some(k) => Some(k + 1)
  }

  /** The instruments of one category, in database order */
  function FilterByCategory(instruments: seq<Instrument>, id: int): (r: seq<Instrument>)
    ensures |r| <= |instruments|
    ensures forall i :: 0 <= i < |r| ==> r[i].categoryId == id
    ensures forall x :: x in r <==> x in instruments && x.categoryId == id
  {
    if instruments == [] then []
    else if instruments[0].categoryId == id then [instruments[0]] + FilterByCategory(instruments[1..], id)
    else FilterByCategory(instruments[1..], id)
  }

  /** The filter keeps the order of the list: it distributes over concatenation */
  lemma {:induction false} FilterByCategoryConcat(xs: seq<Instrument>, ys: seq<Instrument>, id: int)
    ensures FilterByCategory(xs + ys, id) == FilterByCategory(xs, id) + FilterByCategory(ys, id)
    decreases |xs|
  {
    if xs == [] {
      assert xs + ys == ys;
    } else {
      assert (xs + ys)[0] == xs[0];
      assert (xs + ys)[1..] == xs[1..] + ys;
      FilterByCategoryConcat(xs[1..], ys, id);
    }
  }

  /** Strings that differ at a position within the prefix do not start with it */
  lemma NotPrefixAt(s: string, prefix: string, i: nat)
    requires i < |prefix| && i < |s| && s[i] != prefix[i]
    ensures !StartsWith(s, prefix)
  {
    assert |prefix| <= |s| ==> s[..|prefix|][i] == s[i];
  }

  /** The handlers' answer to a request against a database. `number` is
      JavaScript's Number(), applied to the `:id` parameter. */
  function Respond(db: MockData, apiRoot: string, number: string -> JsNumber, req: Request): Response {
    match MatchRoute(apiRoot, req.path)
    case CategoriesAll => Response(200, CategoriesBody(db.categories))
    case CategoryBySlug(slug) =>
      (match FindCategoryBySlug(db.categories, slug)
       case Some(k) => Response(200, CategoryBody(db.categories[k]))
       case None => Response(404, NoBody))
    case InstrumentsAll => Response(200, InstrumentsBody(db.instruments))
    case InstrumentById(id) =>
      (match FindInstrumentById(db.instruments, number(id))
       case Some(k) => Response(200, InstrumentBody(db.instruments[k]))
       case None => Response(404, NoBody))
    case InstrumentsByCategory =>
      if "cat" !in req.query then Response(400, ErrorBody(MissingIdError))
      else if !IsDigitString(req.query["cat"]) then Response(400, ErrorBody(NotIntegerError))
      else Response(200, InstrumentsBody(FilterByCategory(db.instruments, DigitsValue(req.query["cat"]))))
    case Fallback => Response(404, NoBody)
    case NoRoute => Unhandled
  }

  /** The module's database: `let DB`, seeded with a copy of MOCK_DATA */
  class MockServer {
    var db: MockData

    constructor ()
      ensures db == MOCK_DATA
    {
      db := MOCK_DATA;
    }

    /** resetDB(): a fresh copy of MOCK_DATA */
    method ResetDB()
      modifies this
      ensures db == MOCK_DATA
    {
      db := MOCK_DATA;
    }

    /** The handlers only read the database */
    function Handle(apiRoot: string, number: string -> JsNumber, req: Request): Response
      reads this
    {
      Respond(db, apiRoot, number, req)
    }
  }

  /** /categories/all lists every category in order; it is tried before
      /categories/:categorySlug, so "all" never reaches the slug lookup,
      even when a category has that slug */
  lemma CategoriesAllShadowsSlug(db: MockData, apiRoot: string, number: string -> JsNumber, query: map<string, string>)
    ensures Respond(db, apiRoot, number, Request(Api.CategoriesEndpoint(apiRoot) + "/all", query))
      == Response(200, CategoriesBody(db.categories))
    ensures IsSegment("all")
  {
    assert "all"[0] == 'a';
  }

  /** A slug other than "all": the first category with that slug, or 404 */
  lemma CategoryBySlugResponse(db: MockData, apiRoot: string, number: string -> JsNumber,
                               slug: string, query: map<string, string>)
    requires IsSegment(slug) && slug != "all"
    ensures var r := Respond(db, apiRoot, number, Request(Api.GetCategoryBySlugUrl(apiRoot, slug), query));
      (r.Response? && r.status == 200 <==> exists k :: 0 <= k < |db.categories| && db.categories[k].slug == slug) &&
      (r.Response? && r.status == 200 ==>
        r.body.CategoryBody? && r.body.category.slug == slug && r.body.category in db.categories) &&
      (r.Response? && r.status != 200 ==> r.status == 404 && r.body == NoBody) &&
      r.Response?
  {
    var categories := Api.CategoriesEndpoint(apiRoot);
    var path := Api.GetCategoryBySlugUrl(apiRoot, slug);
    assert path[|categories| + 1..] == slug;
    assert (categories + "/all")[|categories| + 1..] == "all";
  }

  /** /instruments/:id answers with the first instrument whose id equals
      Number(id), or 404; a number that is not an integer or is negative
      finds nothing in the mock data */
  lemma InstrumentByIdResponse(db: MockData, apiRoot: string, number: string -> JsNumber,
                               id: string, query: map<string, string>)
    requires IsSegment(id) && id != "all"
    ensures var r := Respond(db, apiRoot, number, Request(InstrumentsEndpoint(apiRoot) + "/" + id, query));
      r.Response? &&
      (r.status == 200 <==> exists k :: 0 <= k < |db.instruments| && number(id) == Integer(db.instruments[k].id)) &&
      (r.status == 200 ==> r.body.InstrumentBody? && number(id) == Integer(r.body.instrument.id)) &&
      (r.status != 200 ==> r.status == 404)
  {
    var instruments := InstrumentsEndpoint(apiRoot);
    var categories := Api.CategoriesEndpoint(apiRoot);
    var path := instruments + "/" + id;
    assert path[|instruments| + 1..] == id;
    assert (instruments + "/all")[|instruments| + 1..] == "all";
    assert path[|apiRoot| + 1] == 'i' && (categories + "/")[|apiRoot| + 1] == 'c';
    NotPrefixAt(path, categories + "/", |apiRoot| + 1);
  }

  /** Every id in the mock data is a non-negative integer, so negative,
      fractional, NaN and infinite numbers match no instrument */
  lemma MockIdsNeverMatchOddNumbers(n: JsNumber)
    requires n.NonInteger? || n.value < 0
    ensures FindInstrumentById(MockInstruments, n) == None
  {
  }

  /** /instruments?cat=...: a missing parameter and one that is not all
      digits are refused with 400 and their messages; otherwise the
      instruments of that category, in order (none for an unknown id) */
  lemma InstrumentsByCategoryResponse(db: MockData, apiRoot: string, number: string -> JsNumber,
                                      query: map<string, string>)
    ensures var r := Respond(db, apiRoot, number, Request(InstrumentsEndpoint(apiRoot), query));
      ("cat" !in query ==> r == Response(400, ErrorBody(MissingIdError))) &&
      ("cat" in query && !IsDigitString(query["cat"]) ==> r == Response(400, ErrorBody(NotIntegerError))) &&
      ("cat" in query && IsDigitString(query["cat"]) ==>
        r == Response(200, InstrumentsBody(FilterByCategory(db.instruments, DigitsValue(query["cat"])))))
  {
    var instruments := InstrumentsEndpoint(apiRoot);
    var categories := Api.CategoriesEndpoint(apiRoot);
    assert |instruments + "/all"| != |instruments|;
    assert instruments[|apiRoot| + 1] == 'i' && (categories + "/")[|apiRoot| + 1] == 'c';
    NotPrefixAt(instruments, categories + "/", |apiRoot| + 1);
  }

  /** The URL api.getCategories() requests, <API_ROOT>/categories, is served
      by no specific handler: the mock answers it with the fallback 404 */
  lemma GetCategoriesUrlFallsBack(db: MockData, apiRoot: string, number: string -> JsNumber, query: map<string, string>)
    ensures MatchRoute(apiRoot, Api.GetCategoriesUrl(apiRoot)) == Fallback
    ensures Respond(db, apiRoot, number, Request(Api.GetCategoriesUrl(apiRoot), query)) == Response(404, NoBody)
  {
    var path := Api.GetCategoriesUrl(apiRoot);
    var instruments := InstrumentsEndpoint(apiRoot);
    assert path[|apiRoot| + 1] == 'c' && (instruments + "/")[|apiRoot| + 1] == 'i';
    NotPrefixAt(path, instruments + "/", |apiRoot| + 1);
    assert StartsWith(path, apiRoot + "/");
  }

  /** After resetDB the server answers as a freshly seeded one */
  method ResetThenList(apiRoot: string, number: string -> JsNumber) returns (r: Response)
    ensures r == Response(200, CategoriesBody(MockCategories))
  {
    var server := new MockServer();
    server.db := MockData([], [], []);
    server.ResetDB();
    CategoriesAllShadowsSlug(server.db, apiRoot, number, map[]);
    r := server.Handle(apiRoot, number, Request(Api.CategoriesEndpoint(apiRoot) + "/all", map[]));
  }
}
