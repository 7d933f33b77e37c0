/** The two request gates: the CORS `origin` callback and `authMiddleware`. */
module Gates {
  import opened JsValues

  /** The origins allowed to make cross-origin calls, in source order. */
  const AllowedOrigins: seq<string> := [
    "http://localhost:3000",
    "https://capacitacionsn.cruzrojamexicana.org.mx",
    "https://capacitacion.cruzrojamexicana.org.mx"
  ]

  /** The origin callback: `!origin || allowedOrigins.includes(origin)`. */
  predicate CorsAllows(origin: Option<string>)
  {
    !Truthy(origin) || ListIncludes(AllowedOrigins, origin.value)
  }

  /** The gate admits an origin exactly when it is absent or empty or one of
      the three listed origins; every other origin is rejected. */
  lemma CorsGateExact(origin: Option<string>)
    ensures CorsAllows(origin) <==>
      || origin == None
      || origin == Some("")
      || origin == Some("http://localhost:3000")
      || origin == Some("https://capacitacionsn.cruzrojamexicana.org.mx")
      || origin == Some("https://capacitacion.cruzrojamexicana.org.mx")
  {
    if origin.Some? {
      ListIncludesIsMembership(AllowedOrigins, origin.value);
    }
  }

  /** The key used when the environment provides none (or an empty one). */
  const DefaultApiKey: string := "supersecreto"

  /** `process.env.API_KEY || "supersecreto"`. */
  function ConfiguredApiKey(env: Option<string>): (key: string)
    ensures key != ""
    ensures env.Some? && env.value != "" ==> key == env.value
    ensures env == None || env == Some("") ==> key == DefaultApiKey
  {
    OrElseNonEmpty(env, DefaultApiKey);
    OrElse(env, DefaultApiKey)
  }

  /** `authMiddleware` lets the request through unless
      `!apiKey || apiKey !== API_KEY`. */
  predicate Authorized(header: Option<string>, apiKey: string)
  {
    Truthy(header) && header.value == apiKey
  }

  /** With the configured key, a request passes exactly when its `x-api-key`
      header is present and equal to that key: since the key is never empty,
      an empty header can never match. */
  lemma AuthGateExact(header: Option<string>, env: Option<string>)
    ensures Authorized(header, ConfiguredApiKey(env)) <==> header == Some(ConfiguredApiKey(env))
    ensures Authorized(header, ConfiguredApiKey(env)) ==> Truthy(header)
  {
  }
}
