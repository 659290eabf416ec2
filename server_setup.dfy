/**
 * The modelled part of the server's entry point: the CORS allow-list and the
 * origin admission rule, the rate-limiter settings, and the order in which
 * the health route and the limiters are registered.
 */
module ServerSetup {
  import opened Wrappers
  import opened Js

  // ----- Allowed origins -----

  /** `s.split(sep)` for a one-character separator: every piece between separators, empty ones included. */
  function Split(s: string, sep: char): (parts: seq<string>)
    ensures |parts| >= 1
    ensures forall i :: 0 <= i < |parts| ==> sep !in parts[i]
    decreases |s|
  {
    if s == [] then [""]
    else if s[0] == sep then [""] + Split(s[1..], sep)
    else
      var rest := Split(s[1..], sep);
      [[s[0]] + rest[0]] + rest[1..]
  }

  /** Joining the pieces back with the separator gives the original string. */
  lemma {:induction false} JoinSplit(s: string, sep: char)
    ensures Join(Split(s, sep), [sep]) == s
    decreases |s|
  {
    if s != [] {
      JoinSplit(s[1..], sep);
      var rest := Split(s[1..], sep);
      if s[0] == sep {
        assert Split(s, sep) == [""] + rest;
      } else {
        var parts := [[s[0]] + rest[0]] + rest[1..];
        if |rest| == 1 {
          assert Join(rest, [sep]) == rest[0];
        } else {
          assert Join(rest, [sep]) == rest[0] + [sep] + Join(rest[1..], [sep]);
          assert parts[1..] == rest[1..];
        }
      }
    }
  }

  /** Splitting a join of separator-free pieces gives the pieces back. */
  lemma {:induction false} SplitJoin(parts: seq<string>, sep: char)
    requires |parts| >= 1
    requires forall i :: 0 <= i < |parts| ==> sep !in parts[i]
    ensures Split(Join(parts, [sep]), sep) == parts
    decreases |parts|, |parts[0]|
  {
    if parts[0] != [] {
      var p := parts[0];
      var tail := [p[1..]] + parts[1..];
      SplitJoin(tail, sep);
      var j := Join(parts, [sep]);
      if |parts| == 1 {
        assert j[1..] == Join(tail, [sep]);
      } else {
        assert j == p + [sep] + Join(parts[1..], [sep]);
        assert Join(tail, [sep]) == p[1..] + [sep] + Join(parts[1..], [sep]);
        assert j[1..] == Join(tail, [sep]);
      }
      assert [p[0]] + p[1..] == p;
    } else if |parts| > 1 {
      SplitJoin(parts[1..], sep);
      assert Join(parts, [sep]) == [sep] + Join(parts[1..], [sep]);
      assert Join(parts, [sep])[1..] == Join(parts[1..], [sep]);
    }
  }

  const DefaultOrigins: seq<string> := [
    "http://localhost:3000",
    "http://localhost:3001",
    "https://educationelly-client-71a1b1901aaa.herokuapp.com"]

  /**
   * `allowedOrigins`: ALLOWED_ORIGINS split on ',' with no trimming when it
   * is set and non-empty, the three default origins otherwise.
   */
  function AllowedOrigins(env: Option<string>): (origins: seq<string>)
    ensures !Truthy(FromOption(env)) ==> origins == DefaultOrigins
    ensures Truthy(FromOption(env)) ==> Join(origins, ",") == env.value
    ensures Truthy(FromOption(env)) ==> forall i :: 0 <= i < |origins| ==> ',' !in origins[i]
  {
    if Truthy(FromOption(env)) then
      JoinSplit(env.value, ',');
      Split(env.value, ',')
    else DefaultOrigins
  }

  // ----- CORS origin rule -----

  datatype CorsDecision = Admit | Reject(message: string)

  /**
   * `corsOptions.origin`: a request without an Origin is admitted first, then
   * any origin in development, then an origin listed exactly; anything else
   * is rejected with 'Not allowed by CORS'.
   */
  function CorsOrigin(origin: Option<string>, nodeEnv: Option<string>, allowed: seq<string>): (d: CorsDecision)
    ensures d.Admit? <==>
      !Truthy(FromOption(origin)) || nodeEnv == Some("development") || origin.value in allowed
    ensures d.Reject? ==> d.message == "Not allowed by CORS"
  {
    if !Truthy(FromOption(origin)) then Admit
    else if nodeEnv == Some("development") then Admit
    else if origin.value in allowed then Admit
    else Reject("Not allowed by CORS")
  }

  /** With ALLOWED_ORIGINS set, an origin holding a comma (two entries at once) is never admitted outside development. */
  lemma CommaOriginRejected(origin: string, nodeEnv: Option<string>, env: Option<string>)
    requires ',' in origin && nodeEnv != Some("development") && Truthy(FromOption(env))
    ensures CorsOrigin(Some(origin), nodeEnv, AllowedOrigins(env)) == Reject("Not allowed by CORS")
  {
    var allowed := AllowedOrigins(env);
    forall i | 0 <= i < |allowed| ensures allowed[i] != origin {
    }
  }

  // ----- Rate limits and their placement -----

  /** One `rateLimit({ windowMs, max, message })`. */
  datatype RateLimit = RateLimit(windowMs: nat, max: nat, message: string)

  /** Every limiter counts requests over a fifteen-minute window (900000 ms). */
  const FifteenMinutes: nat := 15 * 60 * 1000

  /** The general limiter: 100 requests per window. */
  const GeneralLimit: RateLimit := RateLimit(FifteenMinutes, 100, "Too many requests from this IP, please try again later.")
  /** The sign-in limiter: 50 requests per window. */
  const SigninLimit: RateLimit := RateLimit(FifteenMinutes, 50, "Too many login attempts, please try again later.")
  /** The sign-up limiter: 3 requests per window. */
  const SignupLimit: RateLimit := RateLimit(FifteenMinutes, 3, "Too many registration attempts, please try again later.")

  /**
   * A registration on the app, in order: a route whose handler answers the
   * request, or a limiter mounted at a path (`app.use(path, limiter)`; a
   * limiter used without a path is mounted at '/').
   */
  datatype Layer = Route(verb: string, path: string) | Limit(mount: string, limit: RateLimit)

  /** Express's mount rule: '/' covers every path, any other mount its own path and the paths below it. */
  predicate MountCovers(mount: string, path: string)
  {
    mount == "/" || path == mount
    || (|path| > |mount| && path[..|mount|] == mount && path[|mount|] == '/')
  }

  /** No route registered before position `k` answers the request. */
  predicate NoRouteBefore(layers: seq<Layer>, k: int, verb: string, path: string)
  {
    forall j :: 0 <= j < k && j < |layers| ==> layers[j] != Route(verb, path)
  }

  /**
   * The limiters a request passes through before a route answers it: every
   * limiter whose mount covers the path, in registration order, up to the
   * first route that matches the request.
   */
  function LimitsOn(layers: seq<Layer>, verb: string, path: string): (ls: seq<RateLimit>)
    ensures forall l :: l in ls ==> exists m :: Limit(m, l) in layers && MountCovers(m, path)
    decreases |layers|
  {
    if layers == [] then []
    else match layers[0]
      case Route(m, p) => if m == verb && p == path then [] else LimitsOn(layers[1..], verb, path)
      case Limit(mount, l) =>
        (if MountCovers(mount, path) then [l] else []) + LimitsOn(layers[1..], verb, path)
  }

  /**
   * Conversely, every limiter whose mount covers the path and that comes
   * before the first route answering the request applies to it.
   */
  lemma {:induction false} LimitsOnComplete(layers: seq<Layer>, verb: string, path: string, i: nat)
    requires i < |layers| && layers[i].Limit? && MountCovers(layers[i].mount, path)
    requires NoRouteBefore(layers, i, verb, path)
    ensures layers[i].limit in LimitsOn(layers, verb, path)
    decreases i
  {
    if i > 0 {
      assert layers[0] != Route(verb, path);
      LimitsOnComplete(layers[1..], verb, path, i - 1);
    }
  }

  /** A route registered before every limiter is never rate limited. */
  lemma {:induction false} RouteBeforeLimitersUnlimited(layers: seq<Layer>, k: nat, verb: string, path: string)
    requires k < |layers| && layers[k] == Route(verb, path)
    requires forall i :: 0 <= i < k ==> layers[i].Route?
    ensures LimitsOn(layers, verb, path) == []
    decreases k
  {
    if k > 0 {
      assert layers[0].Route?;
      if !(layers[0].verb == verb && layers[0].path == path) {
        RouteBeforeLimitersUnlimited(layers[1..], k - 1, verb, path);
      }
    }
  }

  /**
   * The registrations as written: the health route, the sign-in and sign-up
   * limiters at '/signin' and '/signup', the general limiter, then the
   * router's routes.
   */
  const AppLayers: seq<Layer> := [
    Route("GET", "/health"),
    Limit("/signin", SigninLimit),
    Limit("/signup", SignupLimit),
    Limit("/", GeneralLimit),
    Route("POST", "/api/signin"),
    Route("POST", "/api/signup"),
    Route("GET", "/api/students")]

  /** The health probe is registered before every limiter, so no limit ever applies to it. */
  lemma HealthNeverLimited()
    ensures LimitsOn(AppLayers, "GET", "/health") == []
  {
    RouteBeforeLimitersUnlimited(AppLayers, 0, "GET", "/health");
  }

  /**
   * As written, the sign-up route only meets the general limiter: '/signup'
   * does not cover '/api/signup', so the limit of 3 never applies to it, and
   * likewise the limit of 50 never applies to '/api/signin'.
   */
  lemma SignupLimitMissesSignupRoute()
    ensures LimitsOn(AppLayers, "POST", "/api/signup") == [GeneralLimit]
    ensures LimitsOn(AppLayers, "POST", "/api/signin") == [GeneralLimit]
  {
    var signup, signin := "/api/signup", "/api/signin";
    assert signup[..7] != "/signup" && signup[..7] != "/signin" by { assert signup[1] == 'a'; }
    assert signin[..7] != "/signup" && signin[..7] != "/signin" by { assert signin[1] == 'a'; }
    assert signup != signin by { assert signup[9] != signin[9]; }
    var l := AppLayers;
    assert !MountCovers("/signup", signup) && !MountCovers("/signin", signup);
    assert !MountCovers("/signup", signin) && !MountCovers("/signin", signin);
    assert LimitsOn(l[4..], "POST", signin) == [];
    assert LimitsOn(l[4..], "POST", signup) == LimitsOn(l[5..], "POST", signup) == [];
    assert LimitsOn(l[3..], "POST", signup) == [GeneralLimit];
    assert LimitsOn(l[3..], "POST", signin) == [GeneralLimit];
    assert LimitsOn(l[2..], "POST", signup) == [GeneralLimit];
    assert LimitsOn(l[2..], "POST", signin) == [GeneralLimit];
    assert LimitsOn(l[1..], "POST", signup) == [GeneralLimit];
    assert LimitsOn(l[1..], "POST", signin) == [GeneralLimit];
  }

  /**
   * As written, the sign-in and sign-up limiters apply only under their own
   * mounts, '/signin' and '/signup'.
   */
  lemma SpecificLimitsOnlyUnderOwnMounts(verb: string, path: string)
    ensures SigninLimit in LimitsOn(AppLayers, verb, path) ==> MountCovers("/signin", path)
    ensures SignupLimit in LimitsOn(AppLayers, verb, path) ==> MountCovers("/signup", path)
  {
    var ls := LimitsOn(AppLayers, verb, path);
    if SigninLimit in ls {
      var m :| Limit(m, SigninLimit) in AppLayers && MountCovers(m, path);
      OnlyMountOf(m, SigninLimit, 1);
    }
    if SignupLimit in ls {
      var m :| Limit(m, SignupLimit) in AppLayers && MountCovers(m, path);
      OnlyMountOf(m, SignupLimit, 2);
    }
  }

  /** Each limiter of the app is registered once, at position `k`. */
  lemma OnlyMountOf(m: string, l: RateLimit, k: nat)
    requires k < |AppLayers| && AppLayers[k].Limit? && AppLayers[k].limit == l
    requires Limit(m, l) in AppLayers
    ensures m == AppLayers[k].mount
  {
    var i :| 0 <= i < |AppLayers| && AppLayers[i] == Limit(m, l);
    assert SigninLimit.max != SignupLimit.max && SignupLimit.max != GeneralLimit.max && GeneralLimit.max != SigninLimit.max;
  }

  /** The sign-in and sign-up limiters do reach requests for the client's '/signin' and '/signup' pages, served by the catch-all. */
  lemma SpecificLimitsReachOwnPages()
    ensures SigninLimit in LimitsOn(AppLayers, "GET", "/signin")
    ensures SignupLimit in LimitsOn(AppLayers, "GET", "/signup")
  {
    var l := AppLayers;
    assert l[0] != Route("GET", "/signin") && l[0] != Route("GET", "/signup");
    LimitsOnComplete(l, "GET", "/signin", 1);
    LimitsOnComplete(l, "GET", "/signup", 2);
  }

  /** The registrations with the two specific limiters mounted where the routes are. */
  const IntendedLayers: seq<Layer> := [
    Route("GET", "/health"),
    Limit("/api/signin", SigninLimit),
    Limit("/api/signup", SignupLimit),
    Limit("/", GeneralLimit),
    Route("POST", "/api/signin"),
    Route("POST", "/api/signup"),
    Route("GET", "/api/students")]

  /** Mounted at the routes' paths, each specific limiter applies to its route, ahead of the general one, and to no other. */
  lemma IntendedLimitsApply()
    ensures LimitsOn(IntendedLayers, "POST", "/api/signup") == [SignupLimit, GeneralLimit]
    ensures LimitsOn(IntendedLayers, "POST", "/api/signin") == [SigninLimit, GeneralLimit]
    ensures LimitsOn(IntendedLayers, "GET", "/health") == []
  {
    var signup, signin := "/api/signup", "/api/signin";
    assert signup != signin by { assert signup[9] != signin[9]; }
    assert !MountCovers(signin, signup) && !MountCovers(signup, signin);
    var l := IntendedLayers;
    assert LimitsOn(l[4..], "POST", signin) == [];
    assert LimitsOn(l[4..], "POST", signup) == LimitsOn(l[5..], "POST", signup) == [];
    assert LimitsOn(l[3..], "POST", signup) == [GeneralLimit];
    assert LimitsOn(l[3..], "POST", signin) == [GeneralLimit];
    assert LimitsOn(l[2..], "POST", signup) == [SignupLimit, GeneralLimit];
    assert LimitsOn(l[2..], "POST", signin) == [GeneralLimit];
    assert LimitsOn(l[1..], "POST", signup) == [SignupLimit, GeneralLimit];
    assert LimitsOn(l[1..], "POST", signin) == [SigninLimit, GeneralLimit];
    RouteBeforeLimitersUnlimited(l, 0, "GET", "/health");
  }
}
