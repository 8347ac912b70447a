/** The origin policy of the HTTP application: which browser origins may call the
    API. */
module Cors {
  import opened Common

  /** The origins that are always allowed. */
  const FixedOrigins: seq<string> := [
    "http://localhost:5173",
    "http://localhost:3000",
    "https://vfavretto.github.io",
    "https://vfavretto.github.io/masks-coc",
    "https://masks-coc-backend.onrender.com"]

  /** `[...fixed, process.env.FRONTEND_URL].filter(Boolean)`: the configured front
      end joins the list only when it is set and not empty. */
  function AllowedOrigins(frontendUrl: Option<string>): (r: seq<string>)
    ensures forall o :: o in r <==> o in FixedOrigins || (Truthy(frontendUrl) && o == frontendUrl.value)
    ensures |r| >= |FixedOrigins| && r[..|FixedOrigins|] == FixedOrigins
    ensures "" !in r
  {
    FixedOrigins + if Truthy(frontendUrl) then [frontendUrl.value] else []
  }

  /** The callback outcome: allowed, or refused with an error. */
  datatype Decision = Allow | Refuse(error: string)

  /** The `origin` callback: a request without an origin (or with an empty one) is
      allowed; otherwise the origin must be exactly one of the list. */
  function CheckOrigin(origin: Option<string>, allowed: seq<string>): (d: Decision)
    ensures d.Allow? <==> !Truthy(origin) || origin.value in allowed
    ensures d.Refuse? ==> d.error == "Not allowed by CORS"
  {
    if !Truthy(origin) || origin.value in allowed then Allow else Refuse("Not allowed by CORS")
  }

  /** With the application's list, the GitHub Pages front end is always allowed,
      a stranger is refused, and an unset front end adds nothing. */
  lemma {:induction false} ApplicationOrigins(frontendUrl: Option<string>, stranger: string)
    requires stranger !in FixedOrigins && (!Truthy(frontendUrl) || stranger != frontendUrl.value) && stranger != ""
    ensures CheckOrigin(Some("https://vfavretto.github.io"), AllowedOrigins(frontendUrl)) == Allow
    ensures CheckOrigin(Some(stranger), AllowedOrigins(frontendUrl)) == Refuse("Not allowed by CORS")
    ensures CheckOrigin(None, AllowedOrigins(frontendUrl)) == Allow
    ensures AllowedOrigins(None) == AllowedOrigins(Some("")) == FixedOrigins
  {
    assert FixedOrigins[2] == "https://vfavretto.github.io";
  }
}
