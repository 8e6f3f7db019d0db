/**
 * The sign-up page: the password rule, the e-mail normalisation, and the
 * submit handler's outcome over the page state (`email`, `password`, `error`,
 * `loading`). The auth service's `signUp` call is a parameter.
 */
module Signup {
  import opened Wrappers
  import opened Text

  /** `/[A-Z]/.test(p)` */
  predicate HasUpper(p: string)
  {
    exists k | 0 <= k < |p| :: 'A' <= p[k] <= 'Z'
  }

  /** `/[a-z]/.test(p)` */
  predicate HasLower(p: string)
  {
    exists k | 0 <= k < |p| :: 'a' <= p[k] <= 'z'
  }

  /** `/[0-9]/.test(p)` */
  predicate HasDigit(p: string)
  {
    exists k | 0 <= k < |p| :: '0' <= p[k] <= '9'
  }

  /** A character of the class ``[!@#$%^&*(),.?":{}|<>]``. */
  predicate IsSymbol(c: char)
  {
    c in "!@#$%^&*(),.?\":{}|<>"
  }

  /** `/[!@#$%^&*(),.?":{}|<>]/.test(p)` */
  predicate HasSymbol(p: string)
  {
    exists k | 0 <= k < |p| :: IsSymbol(p[k])
  }

  /** `validatePassword`: at least 8 UTF-16 code units, and each of the four character classes present. */
  predicate ValidatePassword(p: string)
  {
    Utf16Length(p) >= 8 && HasUpper(p) && HasLower(p) && HasDigit(p) && HasSymbol(p)
  }

  /** The four character classes are disjoint, so a valid password has at least four characters. */
  lemma ValidPasswordHasFourChars(p: string)
    requires ValidatePassword(p)
    ensures |p| >= 4
  {
    var u :| 0 <= u < |p| && 'A' <= p[u] <= 'Z';
    var l :| 0 <= l < |p| && 'a' <= p[l] <= 'z';
    var d :| 0 <= d < |p| && '0' <= p[d] <= '9';
    var y :| 0 <= y < |p| && IsSymbol(p[y]);
    SymbolIsNoLetterOrDigit(p[y]);
    assert u != l && u != d && l != d;
    assert y != u && y != l && y != d;
  }

  lemma SymbolIsNoLetterOrDigit(c: char)
    requires IsSymbol(c)
    ensures !('A' <= c <= 'Z') && !('a' <= c <= 'z') && !('0' <= c <= '9')
  {
  }

  /** The five rows of the password checklist under the input, each green when its test passes. */
  function Checklist(p: string): (rows: seq<bool>)
    ensures |rows| == 5
    ensures (forall k :: 0 <= k < 5 ==> rows[k]) <==> ValidatePassword(p)
  {
    var rows := [Utf16Length(p) >= 8, HasUpper(p), HasLower(p), HasDigit(p), HasSymbol(p)];
    assert (forall k :: 0 <= k < 5 ==> rows[k]) <==> rows[0] && rows[1] && rows[2] && rows[3] && rows[4] by {
      if rows[0] && rows[1] && rows[2] && rows[3] && rows[4] {
        forall k | 0 <= k < 5 ensures rows[k] {
          if k == 0 {} else if k == 1 {} else if k == 2 {} else if k == 3 {} else {}
        }
      }
    }
    rows
  }

  /** Every test is "long enough" or "contains", so appending to a valid password keeps it valid. */
  lemma ValidAfterAppend(p: string, q: string)
    requires ValidatePassword(p)
    ensures ValidatePassword(p + q)
  {
    Utf16LengthAppend(p, q);
    var u :| 0 <= u < |p| && 'A' <= p[u] <= 'Z';
    var l :| 0 <= l < |p| && 'a' <= p[l] <= 'z';
    var d :| 0 <= d < |p| && '0' <= p[d] <= '9';
    var y :| 0 <= y < |p| && IsSymbol(p[y]);
    assert (p + q)[u] == p[u] && (p + q)[l] == p[l] && (p + q)[d] == p[d] && (p + q)[y] == p[y];
  }

  /** Seven characters or fewer from the Basic Multilingual Plane are never enough. */
  lemma ShortBmpPasswordInvalid(p: string)
    requires |p| <= 7
    requires forall k :: 0 <= k < |p| ==> p[k] as int <= 0xFFFF
    ensures !ValidatePassword(p)
  {
    BmpLength(p);
  }

  lemma {:induction false} BmpLength(p: string)
    requires forall k :: 0 <= k < |p| ==> p[k] as int <= 0xFFFF
    ensures Utf16Length(p) == |p|
  {
    if p != [] { BmpLength(p[1..]); }
  }

  /** `email.trim().toLowerCase()`. */
  function CleanEmail(email: string): (r: string)
    ensures |r| <= |email|
    ensures IsTrimmed(r)
    ensures forall k :: 0 <= k < |r| ==> !('A' <= r[k] <= 'Z')
  {
    LowerKeepsTrimmed(Trim(email));
    Lower(Trim(email))
  }

  /** Normalising an already normalised address changes nothing. */
  lemma CleanEmailIdempotent(email: string)
    ensures CleanEmail(CleanEmail(email)) == CleanEmail(email)
  {
    var c := CleanEmail(email);
    TrimOfTrimmed(c);
    LowerIdempotent(Trim(email));
  }

  /** What the page hands to the auth service's `signUp`. */
  datatype SignUpRequest = SignUpRequest(email: string, password: string, emailRedirectTo: string)

  /** The awaited `signUp`: it throws, or reports an error message or none. */
  datatype SignUpReply = SignUpThrew | SignUpDone(error: Option<string>)

  const PasswordMessage := "Password must be at least 8 characters and include uppercase, lowercase, number, and symbol."
  const SomethingWrongMessage := "Something went wrong. Please try again."

  /** `NEXT_PUBLIC_SITE_URL || window.location.origin`. */
  function SiteUrl(env: Option<string>, origin: string): (u: string)
    ensures env.Some? && env.value != "" ==> u == env.value
    ensures env.None? || env.value == "" ==> u == origin
  {
    if env.Some? && env.value != "" then env.value else origin
  }

  /** The verify-e-mail page for `clean`, with the address percent-encoded by `encode`. */
  function VerifyEmailRoute(clean: string, encode: string -> string): string
  {
    "/verify-email?email=" + encode(clean)
  }

  /** The sign-up page's state. */
  class SignUpPage {
    var email: string
    var password: string
    var error: Option<string>
    var loading: bool

    constructor ()
      ensures email == "" && password == "" && error == None && !loading
    {
      email, password, error, loading := "", "", None, false;
    }

    /**
     * `handleSignUp` up to its `await`. While a request is in flight it does
     * nothing and returns `None`. A password that fails the rule is rejected
     * without a request. Otherwise `loading` is set and the request the page
     * sends to `signUp` is returned.
     */
    method BeginSignUp(siteEnv: Option<string>, origin: string) returns (request: Option<SignUpRequest>)
      modifies this
      ensures email == old(email) && password == old(password)
      ensures old(loading) ==> request == None && error == old(error) && loading
      ensures !old(loading) && !ValidatePassword(password) ==>
        request == None && error == Some(PasswordMessage) && !loading
      ensures !old(loading) && ValidatePassword(password) ==>
        && request == Some(SignUpRequest(CleanEmail(email), password, SiteUrl(siteEnv, origin) + "/post-login"))
        && error == None && loading
    {
      request := None;
      if loading {
        return;
      }
      error := None;
      if !ValidatePassword(password) {
        error := Some(PasswordMessage);
        return;
      }
      loading := true;
      var siteUrl := SiteUrl(siteEnv, origin);
      var clean := CleanEmail(email);
      request := Some(SignUpRequest(clean, password, siteUrl + "/post-login"));
    }

    /**
     * `handleSignUp` after its `await`, given the request it sent and the reply.
     * It returns the route it navigates to, if any, and `loading` ends false.
     */
    method FinishSignUp(request: SignUpRequest, reply: SignUpReply, encode: string -> string)
      returns (route: Option<string>)
      modifies this
      ensures email == old(email) && password == old(password) && !loading
      ensures reply.SignUpThrew? ==> route == None && error == Some(SomethingWrongMessage)
      ensures reply == SignUpDone(None) ==> route == Some(VerifyEmailRoute(request.email, encode)) && error == old(error)
      ensures reply.SignUpDone? && reply.error.Some? && Contains(Lower(reply.error.value), "already") ==>
        route == Some(VerifyEmailRoute(request.email, encode)) && error == old(error)
      ensures reply.SignUpDone? && reply.error.Some? && !Contains(Lower(reply.error.value), "already") ==>
        route == None && error == Some("error.message")
    {
      route := None;
      match reply {
        case SignUpThrew =>
          error := Some(SomethingWrongMessage);
        case SignUpDone(err) =>
          if err.None? {
            route := Some(VerifyEmailRoute(request.email, encode));
          } else if Contains(Lower(err.value), "already") {
            route := Some(VerifyEmailRoute(request.email, encode));
          } else {
            // the message is shown in an alert, then written and at once overwritten
            error := Some(err.value);
            error := Some("error.message");
          }
      }
      loading := false;
    }

    /**
     * `handleSignUp` when no other event arrives during its `await`: the two
     * halves above, with `signUp` answering the request.
     */
    method HandleSignUp(siteEnv: Option<string>, origin: string, signUp: SignUpRequest -> SignUpReply, encode: string -> string)
      returns (route: Option<string>)
      modifies this
      ensures email == old(email) && password == old(password)
      ensures old(loading) ==> route == None && error == old(error) && loading
      ensures !old(loading) && !ValidatePassword(password) ==>
        route == None && error == Some(PasswordMessage) && !loading
      ensures !old(loading) && ValidatePassword(password) ==>
        var clean := CleanEmail(email);
        var reply := signUp(SignUpRequest(clean, password, SiteUrl(siteEnv, origin) + "/post-login"));
        && !loading
        && (reply.SignUpThrew? ==> route == None && error == Some(SomethingWrongMessage))
        && (reply == SignUpDone(None) ==> route == Some(VerifyEmailRoute(clean, encode)) && error == None)
        && (reply.SignUpDone? && reply.error.Some? && Contains(Lower(reply.error.value), "already") ==>
              route == Some(VerifyEmailRoute(clean, encode)) && error == None)
        && (reply.SignUpDone? && reply.error.Some? && !Contains(Lower(reply.error.value), "already") ==>
              route == None && error == Some("error.message"))
    {
      route := None;
      var request := BeginSignUp(siteEnv, origin);
      if request.Some? {
        route := FinishSignUp(request.value, signUp(request.value), encode);
      }
    }

    /**
     * A second submit that arrives while the first one awaits `signUp` is
     * ignored: it sends no request and leaves the page as it was.
     */
    method SubmitTwice(siteEnv: Option<string>, origin: string) returns (first: Option<SignUpRequest>, second: Option<SignUpRequest>)
      requires !loading && ValidatePassword(password)
      modifies this
      ensures first.Some? && second.None?
      ensures loading && error == None
    {
      first := BeginSignUp(siteEnv, origin);
      second := BeginSignUp(siteEnv, origin);
    }
  }
}
