/** src/api.ts: the user-facing message errorHandler attaches to a failed
    request, and the URLs of the category requests. The axios calls, the
    retry policy and the backoff are not part of this model. */
module Api {
  import opened Text
  import opened Options

  const ServerErrorPrefix := "Error from server: \""
  const ServerErrorSuffix := "\". Please send a bug report!"
  const UnreachableMessage := "Couldn't reach the server." + " Please try reloading in a minute."
  const UnknownErrorPrefix := "Unknown error: "

  /** err.response: the HTTP status line of a response that was received */
  datatype ErrorResponse = ErrorResponse(status: nat, statusText: string)

  /** An AxiosError as errorHandler sees it. Only `uiErrorMessage` can change. */
  class AxiosError {
    const response: Option<ErrorResponse>
    /** err.request is set: the request was sent */
    const hasRequest: bool
    const message: string
    /** err.toString() */
    const text: string
    /** `${err.stack}` */
    const stack: string
    var uiErrorMessage: Option<string>

    constructor (response: Option<ErrorResponse>, hasRequest: bool, message: string, text: string, stack: string)
      ensures this.response == response && this.hasRequest == hasRequest
      ensures this.message == message && this.text == text && this.stack == stack
      ensures uiErrorMessage == None
    {
      this.response := response;
      this.hasRequest := hasRequest;
      this.message := message;
      this.text := text;
      this.stack := stack;
      uiErrorMessage := None;
    }
  }

  /** The message errorHandler chooses: a received response first, then a
      request that got no response, then anything else */
  function UiErrorMessage(response: Option<ErrorResponse>, hasRequest: bool,
                          message: string, text: string, stack: string): string
  {
    if response.Some? then
      ServerErrorPrefix + NatToString(response.value.status) + " " + response.value.statusText + ServerErrorSuffix
    else if hasRequest then
      UnreachableMessage
    else
      UnknownErrorPrefix + message + "\n" + text + "\n" + stack
  }

  /** errorHandler(err): sets err.uiErrorMessage and throws err. It never
      returns normally; `thrown` is the exception, the very object passed in. */
  method ErrorHandler(err: AxiosError) returns (thrown: AxiosError)
    modifies err
    ensures thrown == err
    ensures err.uiErrorMessage == Some(UiErrorMessage(err.response, err.hasRequest, err.message, err.text, err.stack))
  {
    var message: string;
    if err.response.Some? {
      var status, statusText := err.response.value.status, err.response.value.statusText;
      message := ServerErrorPrefix + NatToString(status) + " " + statusText + ServerErrorSuffix;
    } else if err.hasRequest {
      message := UnreachableMessage;
    } else {
      message := UnknownErrorPrefix + err.message + "\n" + err.text + "\n" + err.stack;
    }
    err.uiErrorMessage := Some(message);
    thrown := err;
  }

  /** What a reader of the message can tell about the error */
  datatype MessageKind = ServerError(status: nat) | Unreachable | Unknown | Unrecognised

  function ClassifyMessage(m: string): MessageKind {
    if StartsWith(m, ServerErrorPrefix) then
      var digits := LeadingDigits(m[|ServerErrorPrefix|..]);
      if digits != [] then ServerError(DigitsValue(digits)) else Unrecognised
    else if m == UnreachableMessage then Unreachable
    else if StartsWith(m, UnknownErrorPrefix) then Unknown
    else Unrecognised
  }

  /** The three messages are told apart by their text, the server branch
      wins over the request branch, and the status can be read back from
      a server message */
  lemma ClassifyUiErrorMessage(response: Option<ErrorResponse>, hasRequest: bool,
                               message: string, text: string, stack: string)
    ensures ClassifyMessage(UiErrorMessage(response, hasRequest, message, text, stack)) ==
      if response.Some? then ServerError(response.value.status)
      else if hasRequest then Unreachable
      else Unknown
  {
    var m := UiErrorMessage(response, hasRequest, message, text, stack);
    if response.Some? {
      var digits := NatToString(response.value.status);
      var rest := " " + response.value.statusText + ServerErrorSuffix;
      assert m == ServerErrorPrefix + (digits + rest);
      assert m[|ServerErrorPrefix|..] == digits + rest;
      DigitsValueOfNatToString(response.value.status);
      LeadingDigitsOfDigitsThen(digits, rest);
    } else if !hasRequest {
      assert m == UnknownErrorPrefix + (message + "\n" + text + "\n" + stack);
      assert m[0] == 'U' && ServerErrorPrefix[0] == 'E';
      assert m != UnreachableMessage;
      assert !StartsWith(m, ServerErrorPrefix);
      assert m[..|UnknownErrorPrefix|] == UnknownErrorPrefix;
    }
  }

  /** With no response and no request, the message is "Unknown error: "
      followed by the error's own message */
  lemma UnknownMessageStartsWithErrorMessage(message: string, text: string, stack: string)
    ensures StartsWith(UiErrorMessage(None, false, message, text, stack), UnknownErrorPrefix + message)
  {
    var m := UiErrorMessage(None, false, message, text, stack);
    assert m == (UnknownErrorPrefix + message) + ("\n" + text + "\n" + stack);
  }

  /** A 404 response gives a message starting with: Error from server: "404 */
  lemma NotFoundMessage(statusText: string, hasRequest: bool, message: string, text: string, stack: string)
    ensures StartsWith(UiErrorMessage(Some(ErrorResponse(404, statusText)), hasRequest, message, text, stack),
                       "Error from server: \"404")
  {
    assert NatToString(404) == "404";
    var m := UiErrorMessage(Some(ErrorResponse(404, statusText)), hasRequest, message, text, stack);
    assert m == (ServerErrorPrefix + "404") + (" " + statusText + ServerErrorSuffix);
  }

  /** ENDPOINTS.categories (src/api_endpoints.ts) */
  function CategoriesEndpoint(apiRoot: string): string {
    apiRoot + "/categories"
  }

  /** The URL api.getCategories() requests */
  function GetCategoriesUrl(apiRoot: string): string {
    CategoriesEndpoint(apiRoot)
  }

  /** The URL api.getCategoryBySlug(slug) requests: the categories
      endpoint, a '/', then the slug as given */
  function GetCategoryBySlugUrl(apiRoot: string, slug: string): (url: string)
    ensures StartsWith(url, CategoriesEndpoint(apiRoot) + "/")
    ensures url[|CategoriesEndpoint(apiRoot)| + 1..] == slug
  {
    CategoriesEndpoint(apiRoot) + "/" + slug
  }
}
