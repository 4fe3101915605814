/**
 * How a failed weather fetch becomes the text in the dashboard's `error`
 * state: the failure is classified into one of six kinds, and each kind has
 * its message. `Parse` reads the kind back from a message.
 */
module FetchErrors {
  import opened Wrappers

  /** How an axios call failed: with a response (`err.response`), without one (`err.request`), or otherwise. */
  datatype Failure = HttpError(status: int, message: Option<string>) | NoResponse | Other

  datatype FetchError =
    | MissingKey
    | Unauthorized
    | NotFound(query: string)
    | Provider(text: string)
    | Network
    | Unexpected

  // Each text is written in pieces of at most forty characters, short enough
  // for the verifier to read individual characters out of them.
  const MissingKeyText: string :=
    "API key is missing. " + "Please add your OpenWeather API key " + "to the environment variables."
  const UnauthorizedText: string := "Authentication failed. " + "Please check your API key."
  const NotFoundPrefix: string := "Location \""
  const NotFoundSuffix: string := "\" not found. " + "Please try another location."
  const ProviderPrefix: string := "Error: "
  const ProviderFallback: string := "Failed to fetch weather data"
  const NetworkText: string :=
    "No response received from " + "weather service. Please check " + "your internet connection."
  const UnexpectedText: string := "An unexpected error occurred. " + "Please try again later."

  /** The `catch` block's decision, for a fetch of `query`. */
  function Classify(f: Failure, query: string): FetchError
  {
    match f
    case HttpError(status, message) =>
      if status == 401 then Unauthorized
      else if status == 404 then NotFound(query)
      else Provider(if message.Some? && message.value != "" then message.value else ProviderFallback)
    case NoResponse => Network
    case Other => Unexpected
  }

  /** The text `setError` receives for each kind. */
  function Message(e: FetchError): string
  {
    match e
    case MissingKey => MissingKeyText
    case Unauthorized => UnauthorizedText
    case NotFound(query) => NotFoundPrefix + query + NotFoundSuffix
    case Provider(text) => ProviderPrefix + text
    case Network => NetworkText
    case Unexpected => UnexpectedText
  }

  /** Reads the kind back from an error text; `None` for a text no kind produces. */
  function Parse(msg: string): Option<FetchError>
  {
    if msg == MissingKeyText then Some(MissingKey)
    else if msg == UnauthorizedText then Some(Unauthorized)
    else if msg == NetworkText then Some(Network)
    else if msg == UnexpectedText then Some(Unexpected)
    else if |ProviderPrefix| <= |msg| && msg[..|ProviderPrefix|] == ProviderPrefix then
      Some(Provider(msg[|ProviderPrefix|..]))
    else if |NotFoundPrefix| + |NotFoundSuffix| <= |msg|
         && msg[..|NotFoundPrefix|] == NotFoundPrefix
         && msg[|msg| - |NotFoundSuffix|..] == NotFoundSuffix then
      Some(NotFound(msg[|NotFoundPrefix|..|msg| - |NotFoundSuffix|]))
    else None
  }

  /** Every error text names its kind unambiguously, with the query or provider text intact. */
  lemma ParseMessage(e: FetchError)
    ensures Parse(Message(e)) == Some(e)
  {
    var msg := Message(e);
    match e
    case Provider(text) =>
      assert msg[0] == 'E';
      assert MissingKeyText[0] == 'A' && UnauthorizedText[0] == 'A' && NetworkText[0] == 'N' && UnexpectedText[0] == 'A';
      assert msg != MissingKeyText && msg != UnauthorizedText && msg != NetworkText && msg != UnexpectedText;
      assert msg[..|ProviderPrefix|] == ProviderPrefix;
      assert msg[|ProviderPrefix|..] == text;
    case NotFound(query) =>
      assert msg[0] == 'L';
      assert msg[..|NotFoundPrefix|] == NotFoundPrefix;
      assert msg[|msg| - |NotFoundSuffix|..] == NotFoundSuffix;
      assert msg[|NotFoundPrefix|..|msg| - |NotFoundSuffix|] == query;
    case _ =>
  }

  /** Distinct kinds never share a text. */
  lemma MessageInjective(e1: FetchError, e2: FetchError)
    requires Message(e1) == Message(e2)
    ensures e1 == e2
  {
    ParseMessage(e1);
    ParseMessage(e2);
  }

  /** The table of the `catch` block, as the texts the user sees. */
  lemma ClassificationTable(f: Failure, query: string)
    ensures f.HttpError? && f.status == 401 ==> Message(Classify(f, query)) == UnauthorizedText
    ensures f.HttpError? && f.status == 404 ==>
      Message(Classify(f, query)) == NotFoundPrefix + query + NotFoundSuffix
    ensures f.HttpError? && f.status != 401 && f.status != 404 ==>
      Message(Classify(f, query)) ==
        ProviderPrefix + (if f.message.Some? && f.message.value != "" then f.message.value else ProviderFallback)
    ensures f.NoResponse? ==> Message(Classify(f, query)) == NetworkText
    ensures f.Other? ==> Message(Classify(f, query)) == UnexpectedText
  {
  }
}
