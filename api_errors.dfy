/**
 * `handleApiError` (src/lib/apiErrorHandler.ts): classify a thrown value by
 * the text of its message, first match wins, and answer with status 500.
 * The single `res.status(500).json(...)` write is the returned reply;
 * `NODE_ENV === 'development'` is the `isDevelopment` parameter.
 */
module ApiErrors {
  import opened Text
  import opened Types

  /** A value caught by `catch`: an `Error` instance with its message, or anything else. */
  datatype Thrown = ErrorInstance(message: string) | NonError

  /** `error instanceof Error ? error.message : 'Unknown error'`. */
  function MessageOf(e: Thrown): string
  {
    if e.ErrorInstance? then e.message else "Unknown error"
  }

  /** The JSON body written with status `status`. */
  datatype ErrorReply = ErrorReply(status: int, error: string, details: Option<string>)

  const ConfigurationError := "Database configuration error"
  const ClientError := "Database client error"
  const ConnectionError := "Database connection error"
  const InternalError := "Internal server error"

  const ConfigurationDetails :=
    "DATABASE_URL is not configured. Please set the DATABASE_URL environment variable."
  const ClientDetails :=
    "Prisma Client may not be properly generated. Run: npx prisma generate"
  const ConnectionDetails :=
    "Cannot connect to database. Check DATABASE_URL and database availability."

  /** `...(isDevelopment && { details })`: the key is present only in development. */
  function DevOnly(isDevelopment: bool, details: string): Option<string>
  {
    if isDevelopment then Some(details) else None
  }

  predicate MentionsDatabaseUrl(msg: string) { Contains(msg, "DATABASE_URL") }
  predicate MentionsPrismaClient(msg: string) { Contains(msg, "PrismaClient") }
  predicate MentionsConnection(msg: string) { Contains(msg, "connect") || Contains(msg, "ECONNREFUSED") }

  /** `handleApiError`. */
  function HandleApiError(e: Thrown, isDevelopment: bool): (r: ErrorReply)
    ensures r.status == 500
    ensures r.details.Some? <==> isDevelopment
    ensures MentionsDatabaseUrl(MessageOf(e)) ==> r.error == ConfigurationError
    ensures r.error == ClientError <==>
      !MentionsDatabaseUrl(MessageOf(e)) && MentionsPrismaClient(MessageOf(e))
    ensures r.error == ConnectionError <==>
      !MentionsDatabaseUrl(MessageOf(e)) && !MentionsPrismaClient(MessageOf(e)) && MentionsConnection(MessageOf(e))
    ensures r.error == InternalError <==>
      !MentionsDatabaseUrl(MessageOf(e)) && !MentionsPrismaClient(MessageOf(e)) && !MentionsConnection(MessageOf(e))
    ensures r.error == InternalError && isDevelopment ==> r.details == Some(MessageOf(e))
  {
    var errorMessage := MessageOf(e);
    if Contains(errorMessage, "DATABASE_URL") then
      ErrorReply(500, ConfigurationError, DevOnly(isDevelopment, ConfigurationDetails))
    else if Contains(errorMessage, "PrismaClient") then
      ErrorReply(500, ClientError, DevOnly(isDevelopment, ClientDetails))
    else if Contains(errorMessage, "connect") || Contains(errorMessage, "ECONNREFUSED") then
      ErrorReply(500, ConnectionError, DevOnly(isDevelopment, ConnectionDetails))
    else
      ErrorReply(500, InternalError, DevOnly(isDevelopment, errorMessage))
  }

  /** "connect" is a plain substring test, so any message mentioning "disconnect" is a connection error unless an earlier key occurs. */
  lemma DisconnectIsConnectionError(msg: string, isDevelopment: bool)
    requires Contains(msg, "disconnect")
    requires !Contains(msg, "DATABASE_URL") && !Contains(msg, "PrismaClient")
    ensures HandleApiError(ErrorInstance(msg), isDevelopment).error == ConnectionError
  {
    assert "disconnect"[3..10] == "connect";
    ContainsAt("disconnect", "connect", 3);
    ContainsTransitive(msg, "disconnect", "connect");
  }
}
