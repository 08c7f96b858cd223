/**
 * The `withAuth` higher-order component of src/routes/hoc/exercise/solution.jsx.
 * Every component it returns keeps its own `isAuthenticated` flag and `email`
 * text; it renders a login form until a login with a non-blank email, and the
 * wrapped component, with the same props, from then on.
 */
module Auth {

  /**
   * The characters `String.prototype.trim` strips: the ECMAScript WhiteSpace
   * (tab, vertical tab, form feed, space, no-break space, byte order mark and
   * the other space separators) and LineTerminator code points.
   */
  predicate IsJsWhitespace(c: char)
  {
    var n := c as int;
    || n == 0x09 || n == 0x0B || n == 0x0C || n == 0x20 || n == 0xA0 || n == 0xFEFF
    || n == 0x1680 || 0x2000 <= n <= 0x200A || n == 0x202F || n == 0x205F || n == 0x3000
    || n == 0x0A || n == 0x0D || n == 0x2028 || n == 0x2029
  }

  /** Every character of `s` is whitespace (the empty string included). */
  predicate Blank(s: string)
  {
    forall i :: 0 <= i < |s| ==> IsJsWhitespace(s[i])
  }

  /** `s` without its leading whitespace: a suffix of `s` that starts with a non-blank, or is empty. */
  function TrimStart(s: string): (r: string)
    ensures |r| <= |s| && r == s[|s| - |r|..]
    ensures Blank(s[..|s| - |r|])
    ensures r != [] ==> !IsJsWhitespace(r[0])
    ensures r == [] <==> Blank(s)
    decreases |s|
  {
    if s != [] && IsJsWhitespace(s[0]) then
      var r := TrimStart(s[1..]);
      assert s[..|s| - |r|] == [s[0]] + s[1..][..|s| - 1 - |r|];
      r
    else s
  }

  /** `s` without its trailing whitespace: a prefix of `s` that ends with a non-blank, or is empty. */
  function TrimEnd(s: string): (r: string)
    ensures |r| <= |s| && r == s[..|r|]
    ensures Blank(s[|r|..])
    ensures r != [] ==> !IsJsWhitespace(r[|r| - 1])
    ensures r == [] <==> Blank(s)
    decreases |s|
  {
    if s != [] && IsJsWhitespace(s[|s| - 1]) then
      var r := TrimEnd(s[..|s| - 1]);
      assert s[|r|..] == s[..|s| - 1][|r|..] + [s[|s| - 1]];
      r
    else s
  }

  /** `s.trim()`. */
  function Trim(s: string): (r: string)
    ensures |r| <= |s|
    ensures r != [] ==> !IsJsWhitespace(r[0]) && !IsJsWhitespace(r[|r| - 1])
  {
    TrimEnd(TrimStart(s))
  }

  /** `email.trim()` is truthy exactly when the email holds a character that is not whitespace. */
  lemma TrimEmptyIffBlank(s: string)
    ensures Trim(s) == "" <==> Blank(s)
  {
  }

  /** What the returned component renders. */
  datatype AuthView<P> = LoginForm(email: string) | Protected(props: P)

  class AuthenticatedComponent {
    var isAuthenticated: bool
    var email: string

    /** A fresh instance: `useState(false)` and `useState("")`. */
    constructor ()
      ensures !isAuthenticated && email == ""
    {
      isAuthenticated := false;
      email := "";
    }

    /** The input's `onChange`: `email` becomes the input's value; the flag stays. */
    method ChangeEmail(value: string)
      modifies this
      ensures email == value && isAuthenticated == old(isAuthenticated)
    {
      email := value;
    }

    /**
     * `handleLogin`: authenticates exactly when the email is not blank, and
     * never clears the flag. It changes this instance only.
     */
    method HandleLogin()
      modifies this
      ensures isAuthenticated == (old(isAuthenticated) || !Blank(email))
      ensures email == old(email)
    {
      TrimEmptyIffBlank(email);
      if Trim(email) != "" {
        isAuthenticated := true;
      }
    }

    /** The render branch: the login form until authenticated, then the wrapped component with every prop. */
    function View<P>(props: P): (r: AuthView<P>)
      reads this
      ensures r.LoginForm? <==> !isAuthenticated
      ensures r.LoginForm? ==> r.email == email
      ensures r.Protected? ==> r.props == props
    {
      if !isAuthenticated then LoginForm(email) else Protected(props)
    }
  }

  /** The page's two protected components: logging in on one leaves the other at its login form. */
  method TwoProtectedPages()
  {
    var profile := new AuthenticatedComponent();
    var settings := new AuthenticatedComponent();
    profile.ChangeEmail("   ");
    profile.HandleLogin();
    assert !profile.isAuthenticated by { assert Blank("   "); }
    profile.ChangeEmail(" a@b.c ");
    profile.HandleLogin();
    assert profile.isAuthenticated by { assert !IsJsWhitespace(" a@b.c "[1]); }
    assert settings.View(0) == LoginForm("");
    assert profile.View(0) == Protected(0);
  }
}
