/**
 * The CORS origin check of the server: requests without an origin and
 * requests from the allowed local origins pass, every other origin is refused.
 * `frontendUrl` is the FRONTEND_URL environment variable, if set.
 */
module Server {
  import opened Wrappers

  const DefaultFrontendUrl := "http://localhost:5173"
  const SecondDevOrigin := "http://localhost:5174"
  const CorsRejection := "CORS policy: This origin is not allowed"

  /** `process.env.FRONTEND_URL || 'http://localhost:5173'`. */
  function FrontendUrl(frontendUrl: Option<string>): (url: string)
    ensures frontendUrl.Some? && frontendUrl.value != "" ==> url == frontendUrl.value
    ensures frontendUrl.None? || frontendUrl.value == "" ==> url == DefaultFrontendUrl
  {
    if frontendUrl.Some? && frontendUrl.value != "" then frontendUrl.value else DefaultFrontendUrl
  }

  /** `allowedLocalOrigins`: the configured frontend and the two development ports. */
  function AllowedLocalOrigins(frontendUrl: Option<string>): (origins: seq<string>)
    ensures DefaultFrontendUrl in origins && SecondDevOrigin in origins
    ensures FrontendUrl(frontendUrl) in origins
    ensures forall o :: o in origins ==> o == FrontendUrl(frontendUrl) || o == DefaultFrontendUrl || o == SecondDevOrigin
  {
    [FrontendUrl(frontendUrl), DefaultFrontendUrl, SecondDevOrigin]
  }

  /** What the `origin` callback passes on: allowed, or refused with an error. */
  datatype CorsDecision = Allow | Reject(message: string)

  function CheckOrigin(frontendUrl: Option<string>, origin: Option<string>): (d: CorsDecision)
    ensures d == Allow <==> origin.None? || origin.value == "" || origin.value in AllowedLocalOrigins(frontendUrl)
    ensures d != Allow ==> d == Reject(CorsRejection)
  {
    if origin.None? || origin.value == "" then Allow
    else if origin.value in AllowedLocalOrigins(frontendUrl) then Allow
    else Reject(CorsRejection)
  }

  /** Both development origins pass whatever FRONTEND_URL says, and so does the frontend it names. */
  lemma DevOriginsAlwaysAllowed(frontendUrl: Option<string>)
    ensures CheckOrigin(frontendUrl, Some(DefaultFrontendUrl)) == Allow
    ensures CheckOrigin(frontendUrl, Some(SecondDevOrigin)) == Allow
    ensures CheckOrigin(frontendUrl, Some(FrontendUrl(frontendUrl))) == Allow
  {
  }

  /** Without FRONTEND_URL exactly the two development origins (and no origin) pass. */
  lemma UnsetFrontendAllowsOnlyDevOrigins(origin: string)
    requires origin != "" && origin != DefaultFrontendUrl && origin != SecondDevOrigin
    ensures CheckOrigin(None, Some(origin)) == Reject(CorsRejection)
  {
  }
}
