/**
 * Signing in with Google or Apple (hooks/useSocialAuth.ts): after the
 * single sign-on, a user without a username gets a generated one, with up to
 * five attempts.
 */
module SocialAuth {
  import opened Wrappers
  import opened Records
  import opened Text

  /** Lower-casing distributes over concatenation. */
  lemma ToLowerAppend(a: string, b: string)
    ensures ToLower(a + b) == ToLower(a) + ToLower(b)
  {
  }

  /** Text without capital letters is its own lower case. */
  lemma ToLowerOfLower(s: string)
    requires forall i :: 0 <= i < |s| ==> !('A' <= s[i] <= 'Z')
    ensures ToLower(s) == s
  {
  }

  /**
   * `generateUsername`. `base36` is `Math.random().toString(36)` (a "0."
   * followed by base-36 digits) and `n` is `Math.floor(Math.random() * 900)`.
   */
  function GenerateUsername(base36: string, n: nat): string
    requires n < 900
  {
    ToLower("user_" + Substring(base36, 2, 8) + "_" + NatToString(100 + n))
  }

  /**
   * A generated username is "user_", up to six characters of the draw, "_"
   * and a number in 100..999 written with three digits, all lower case.
   */
  lemma GenerateUsernameFormat(base36: string, n: nat)
    requires n < 900
    ensures var r := GenerateUsername(base36, n);
            var part := ToLower(Substring(base36, 2, 8));
            var num := NatToString(100 + n);
            r == "user_" + part + "_" + num &&
            |part| <= 6 && |num| == 3 && DigitsValue(num) == 100 + n &&
            forall i :: 0 <= i < |r| ==> !('A' <= r[i] <= 'Z')
  {
    var part := Substring(base36, 2, 8);
    SubstringPiece(base36, 2, 8);
    UsernameLowered(part, NatToString(100 + n));
    ThreeDigits(100 + n);
  }

  /** Only the drawn part of a username can hold capitals. */
  lemma UsernameLowered(part: string, num: string)
    requires AllDigits(num)
    ensures ToLower("user_" + part + "_" + num) == "user_" + ToLower(part) + "_" + num
  {
    ToLowerAppend("user_" + part + "_", num);
    ToLowerAppend("user_" + part, "_");
    ToLowerAppend("user_", part);
    ToLowerOfLower("user_");
    ToLowerOfLower("_");
    ToLowerOfLower(num);
  }

  /** A number in 100..999 is written with three digits. */
  lemma ThreeDigits(k: nat)
    requires 100 <= k < 1000
    ensures |NatToString(k)| == 3 && DigitsValue(NatToString(k)) == k
  {
    assert Pow10(2) == 100 && Pow10(3) == 1000;
    NatToStringLength(k, 3);
    NatToStringRoundTrip(k);
  }

  datatype Strategy = OAuthGoogle | OAuthApple

  /** The provider named in the error message. */
  function ProviderLabel(s: Strategy): (r: string)
    ensures r == "Google" <==> s == OAuthGoogle
    ensures r == "Apple" <==> s == OAuthApple
  {
    // The two labels differ in length, so neither is the other.
    assert |"Google"| == 6 && |"Apple"| == 5;
    match s
    case OAuthGoogle => "Google"
    case OAuthApple => "Apple"
  }

  /** The error message shown when signing in fails. */
  function FailureMessage(s: Strategy): string {
    "Falha ao entrar com " + ProviderLabel(s) + ". Tente novamente."
  }

  /** The failure message tells the user which provider failed: the two messages differ. */
  lemma FailureMessageNamesProvider(s1: Strategy, s2: Strategy)
    ensures FailureMessage(s1) == FailureMessage(s2) <==> s1 == s2
  {
    var prefix := "Falha ao entrar com ";
    if s1 != s2 {
      // The first letter of the label follows the fixed prefix.
      assert FailureMessage(s1)[|prefix|] == ProviderLabel(s1)[0];
      assert FailureMessage(s2)[|prefix|] == ProviderLabel(s2)[0];
    }
  }

  /** The result of the single sign-on: the session id, if any, and whether `setActive` was returned. */
  datatype SsoResult = SsoResult(createdSessionId: Option<string>, hasSetActive: bool)

  /** How a sign-in ends. */
  datatype AuthOutcome = Failure(message: string) | SignedIn

  /** The largest number of username attempts. */
  const MaxAttempts: nat := 5

  /**
   * The state of the hook: the loading flag, and (standing for the provider's
   * user object) the username the provider accepted, if any.
   */
  class SocialAuthFlow {
    var isLoading: bool
    var assignedUsername: Option<string>

    constructor ()
      ensures !isLoading && assignedUsername == None
    {
      isLoading := false;
      assignedUsername := None;
    }

    /**
     * The retry loop: a fresh candidate per attempt until the provider accepts
     * one or five were refused. `tried` lists the candidates sent; all but the
     * last were refused, and the last was accepted unless all five were
     * refused.
     */
    method RetryUsername(accepts: seq<bool>, parts: seq<string>, numbers: seq<nat>) returns (tried: seq<string>)
      requires |accepts| >= MaxAttempts && |parts| >= MaxAttempts && |numbers| >= MaxAttempts
      requires forall k :: 0 <= k < |numbers| ==> numbers[k] < 900
      modifies this`assignedUsername
      ensures 1 <= |tried| <= MaxAttempts
      ensures forall k :: 0 <= k < |tried| ==> tried[k] == GenerateUsername(parts[k], numbers[k])
      ensures forall k :: 0 <= k < |tried| - 1 ==> !accepts[k]
      ensures accepts[|tried| - 1] ==> assignedUsername == Some(tried[|tried| - 1])
      ensures !accepts[|tried| - 1] ==> |tried| == MaxAttempts && assignedUsername == old(assignedUsername)
    {
      tried := [];
      var attempts := 0;
      var success := false;
      while attempts < MaxAttempts && !success
        invariant attempts <= MaxAttempts
        invariant |tried| == attempts + (if success then 1 else 0) <= MaxAttempts
        invariant forall k :: 0 <= k < |tried| ==> tried[k] == GenerateUsername(parts[k], numbers[k])
        invariant forall k :: 0 <= k < attempts ==> !accepts[k]
        invariant success ==> attempts < MaxAttempts && accepts[attempts] && assignedUsername == Some(tried[attempts])
        invariant !success ==> assignedUsername == old(assignedUsername)
        decreases MaxAttempts - attempts, if success then 0 else 1
      {
        var candidate := GenerateUsername(parts[attempts], numbers[attempts]);
        tried := tried + [candidate];
        if accepts[attempts] {
          assignedUsername := Some(candidate);
          success := true;
        } else {
          attempts := attempts + 1;
        }
      }
    }

    /**
     * `handleSocialAuth`. `accepts[k]` says whether the provider accepts the
     * k-th username update and `(parts[k], numbers[k])` are the random draws
     * of the k-th candidate. A failed sign-on aborts before any username
     * work. A user who exists and has no username gets candidates until one
     * is accepted or five were refused; `tried` lists the candidates sent.
     */
    method HandleSocialAuth(strategy: Strategy, sso: SsoResult, user: Option<ProviderUser>,
                            accepts: seq<bool>, parts: seq<string>, numbers: seq<nat>)
      returns (outcome: AuthOutcome, tried: seq<string>)
      requires |accepts| >= MaxAttempts && |parts| >= MaxAttempts && |numbers| >= MaxAttempts
      requires forall k :: 0 <= k < |numbers| ==> numbers[k] < 900
      modifies this
      ensures !isLoading
      ensures !Truthy(sso.createdSessionId) || !sso.hasSetActive ==>
        outcome == Failure(FailureMessage(strategy)) && tried == [] && assignedUsername == old(assignedUsername)
      ensures Truthy(sso.createdSessionId) && sso.hasSetActive ==> outcome == SignedIn
      ensures user.None? || Truthy(user.value.username) ==> tried == [] && assignedUsername == old(assignedUsername)
      ensures |tried| <= MaxAttempts
      ensures forall k :: 0 <= k < |tried| ==> tried[k] == GenerateUsername(parts[k], numbers[k])
      ensures forall k :: 0 <= k < |tried| - 1 ==> !accepts[k]
      ensures tried != [] ==>
        (accepts[|tried| - 1] ==> assignedUsername == Some(tried[|tried| - 1])) &&
        (!accepts[|tried| - 1] ==> |tried| == MaxAttempts && assignedUsername == old(assignedUsername))
      ensures Truthy(sso.createdSessionId) && sso.hasSetActive && user.Some? && !Truthy(user.value.username) ==>
        tried != [] && (|tried| < MaxAttempts ==> accepts[|tried| - 1])
    {
      isLoading := true;
      tried := [];
      if !Truthy(sso.createdSessionId) || !sso.hasSetActive {
        outcome := Failure(FailureMessage(strategy));
        isLoading := false;
        return;
      }
      outcome := SignedIn;
      if user.Some? && !Truthy(user.value.username) {
        tried := RetryUsername(accepts, parts, numbers);
      }
      isLoading := false;
    }
  }
}
