/** `formatApiError`: the user-facing message for a failed request, chosen by
    a fixed precedence over the axios error's code, HTTP status, the server's
    `detail` and the error's own `message`. */
module ErrorFormat {
  import opened Http
  import opened Strings

  /** The message categories, in precedence order. The two that carry text
      carry what is shown after their fixed prefix. */
  datatype Category =
    | Timeout
    | NetworkDown
    | TooLarge
    | InvalidData(shown: string)
    | NotFound
    | Restarting
    | Other(shown: string)

  // Each fixed message is written as its leading emoji followed by the rest.
  const TimeoutText := "⏰" + " Timeout: Le serveur met trop de temps à répondre. Le serveur Render était peut-être endormi."
  const NetworkText := "\U{1F310}" + " Erreur réseau: Impossible de contacter le serveur. Vérifiez votre connexion."
  const TooLargeText := "\U{1F4F8}" + " Image trop volumineuse: Réduisez la taille de votre image."
  const InvalidPrefix := "❌ Données invalides: "
  const InvalidDefault := "Vérifiez vos informations."
  const NotFoundText := "\U{1F50D}" + " Ressource introuvable: L'élément demandé n'existe pas."
  const RestartingText := "\U{1F634}" + " Serveur en maintenance: Le serveur Render redémarre, réessayez dans 30 secondes."
  const OtherPrefix := "❌ Erreur: "
  const OtherDefault := "Une erreur inattendue est survenue."

  /** `error.response?.data?.detail`, with absent and "" both falsy. */
  function Detail(e: ApiError): Option<string>
  {
    if e.response.Some? then e.response.value.detail else None
  }

  /** The branch of the `if`/`else if` chain that `formatApiError` takes. */
  function Classify(e: ApiError): Category
  {
    if e.code == Some("ECONNABORTED") then Timeout
    else if e.code == Some("ERR_NETWORK") then NetworkDown
    else if StatusOf(e) == Some(413) then TooLarge
    else if StatusOf(e) == Some(400) then InvalidData(OrElse(Detail(e), InvalidDefault))
    else if StatusOf(e) == Some(404) then NotFound
    else if StatusOf(e) == Some(503) then Restarting
    else Other(OrElse(Detail(e), OrElse(e.message, OtherDefault)))
  }

  /** The message text of each category. */
  function Text(c: Category): string
  {
    match c
    case Timeout => TimeoutText
    case NetworkDown => NetworkText
    case TooLarge => TooLargeText
    case InvalidData(shown) => InvalidPrefix + shown
    case NotFound => NotFoundText
    case Restarting => RestartingText
    case Other(shown) => OtherPrefix + shown
  }

  /** `formatApiError(error)` */
  function FormatApiError(e: ApiError): string
  {
    Text(Classify(e))
  }

  /** A request that timed out on the client gets the timeout message,
      whatever HTTP status or detail the error also carries. */
  lemma TimeoutTakesPrecedence(e: ApiError, r: Option<ErrorResponse>)
    requires e.code == Some("ECONNABORTED")
    ensures FormatApiError(e.(response := r)) == TimeoutText
    ensures Classify(e) == Timeout
  {
  }

  /** A request the browser could not send at all gets the network message,
      whatever response is attached, unless it also timed out. */
  lemma NetworkErrorTakesPrecedence(e: ApiError, r: Option<ErrorResponse>)
    requires e.code == Some("ERR_NETWORK")
    ensures FormatApiError(e.(response := r)) == NetworkText
    ensures Classify(e) == NetworkDown
  {
  }

  /** Without one of the two special codes, the HTTP status alone decides the
      category, in the order 413, 400, 404, 503, then everything else (502,
      500, no response at all). */
  lemma StatusPrecedence(e: ApiError)
    requires e.code != Some("ECONNABORTED") && e.code != Some("ERR_NETWORK")
    ensures StatusOf(e) == Some(413) <==> Classify(e) == TooLarge
    ensures StatusOf(e) == Some(400) <==> Classify(e).InvalidData?
    ensures StatusOf(e) == Some(404) <==> Classify(e) == NotFound
    ensures StatusOf(e) == Some(503) <==> Classify(e) == Restarting
    ensures Classify(e).Other? <==> StatusOf(e) !in {Some(413), Some(400), Some(404), Some(503)}
  {
  }

  /** For a 400, the server's `detail` is part of the message when it is a
      non-empty string; otherwise the fixed advice is shown. */
  lemma InvalidDataShowsDetail(e: ApiError)
    requires e.code != Some("ECONNABORTED") && e.code != Some("ERR_NETWORK")
    requires StatusOf(e) == Some(400)
    ensures Truthy(Detail(e)) ==> Includes(FormatApiError(e), Detail(e).value)
    ensures !Truthy(Detail(e)) ==> FormatApiError(e) == InvalidPrefix + InvalidDefault
  {
    if Truthy(Detail(e)) {
      IncludesSuffix(InvalidPrefix, Detail(e).value);
    }
  }

  /** The generic branch shows `detail`, else `message`, else fixed text. */
  lemma OtherFallsBack(e: ApiError)
    requires Classify(e).Other?
    ensures Truthy(Detail(e)) ==> FormatApiError(e) == OtherPrefix + Detail(e).value
    ensures !Truthy(Detail(e)) && Truthy(e.message) ==> FormatApiError(e) == OtherPrefix + e.message.value
    ensures !Truthy(Detail(e)) && !Truthy(e.message) ==> FormatApiError(e) == OtherPrefix + OtherDefault
    ensures Truthy(Detail(e)) ==> Includes(FormatApiError(e), Detail(e).value)
  {
    if Truthy(Detail(e)) {
      IncludesSuffix(OtherPrefix, Detail(e).value);
    }
  }

  /** No two categories share a message: the text the user reads identifies
      the branch that produced it, and what it shows after the prefix. */
  lemma TextIdentifiesCategory(c: Category, d: Category)
    requires Text(c) == Text(d)
    ensures c == d
  {
    var t := Text(c);
    if c.InvalidData? && d.InvalidData? {
      SamePrefixCancels(InvalidPrefix, c.shown, d.shown);
    } else if c.Other? && d.Other? {
      SamePrefixCancels(OtherPrefix, c.shown, d.shown);
    } else if c.InvalidData? || c.Other? || d.InvalidData? || d.Other? {
      PrefixChars(c);
      PrefixChars(d);
    } else {
      assert t[0] == Text(c)[0] == Text(d)[0];
    }
  }

  /** The first and third characters of each message. */
  lemma PrefixChars(c: Category)
    ensures c.InvalidData? ==> Text(c)[0] == '❌' && Text(c)[2] == 'D'
    ensures c.Other? ==> Text(c)[0] == '❌' && Text(c)[2] == 'E'
    ensures !c.InvalidData? && !c.Other? ==> Text(c)[0] != '❌'
  {
    if c.InvalidData? {
      assert Text(c)[0] == InvalidPrefix[0] && Text(c)[2] == InvalidPrefix[2];
    } else if c.Other? {
      assert Text(c)[0] == OtherPrefix[0] && Text(c)[2] == OtherPrefix[2];
    } else {
      match c
      case Timeout => assert TimeoutText[0] == '⏰';
      case NetworkDown => assert NetworkText[0] == '\U{1F310}';
      case TooLarge => assert TooLargeText[0] == '\U{1F4F8}';
      case NotFound => assert NotFoundText[0] == '\U{1F50D}';
      case Restarting => assert RestartingText[0] == '\U{1F634}';
    }
  }

  /** Two errors with the same message were classified alike. */
  lemma SameMessageSameCategory(e: ApiError, f: ApiError)
    requires FormatApiError(e) == FormatApiError(f)
    ensures Classify(e) == Classify(f)
  {
    TextIdentifiesCategory(Classify(e), Classify(f));
  }
}
