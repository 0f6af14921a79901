/** Values shared by every page of the store: optional values, results,
    PHP's truthiness of request parameters and PHP's trim(). */
module Common {

  /** A session key, request parameter or nullable column: None when unset or NULL. */
  datatype Option<T> = None | Some(value: T)

  datatype Result<T, E> = Ok(value: T) | Err(error: E)

  /** PHP's conversion of a string to bool: only "" and "0" are false. */
  predicate Truthy(s: string) {
    s != "" && s != "0"
  }

  /** A string parameter that is set and passes a `!$x` test. */
  predicate Given(x: Option<string>) {
    x.Some? && Truthy(x.value)
  }

  /** The value of filter_input(..., FILTER_VALIDATE_INT) (None when the
      parameter is missing or not an integer) passing a `!$x` test: any
      integer but 0, negative ones included. */
  predicate IntGiven(x: Option<int>) {
    x.Some? && x.value != 0
  }

  /** The characters PHP's trim() strips by default: " \t\n\r\0\x0B". */
  predicate IsTrimChar(c: char) {
    c == ' ' || c == '\t' || c == '\n' || c == '\r' || c == '\0' || c == '\U{0B}'
  }

  /** ltrim(): drops the leading run of trim characters. */
  function TrimLeft(s: string): (r: string)
    ensures |r| <= |s|
    ensures r == [] || !IsTrimChar(r[0])
    ensures forall i :: 0 <= i < |s| - |r| ==> IsTrimChar(s[i])
  {
    if s != [] && IsTrimChar(s[0]) then TrimLeft(s[1..]) else s
  }

  /** rtrim(): drops the trailing run of trim characters. */
  function TrimRight(s: string): (r: string)
    ensures |r| <= |s|
    ensures r == [] || !IsTrimChar(r[|r| - 1])
    ensures forall i :: |r| <= i < |s| ==> IsTrimChar(s[i])
  {
    if s != [] && IsTrimChar(s[|s| - 1]) then TrimRight(s[..|s| - 1]) else s
  }

  /** ltrim() keeps a suffix of its argument. */
  lemma {:induction false} TrimLeftIsSuffix(s: string)
    ensures TrimLeft(s) == s[|s| - |TrimLeft(s)|..]
  {
    if s != [] && IsTrimChar(s[0]) {
      TrimLeftIsSuffix(s[1..]);
      assert s[1..][|s| - 1 - |TrimLeft(s[1..])|..] == s[|s| - |TrimLeft(s)|..];
    }
  }

  /** rtrim() keeps a prefix of its argument. */
  lemma {:induction false} TrimRightIsPrefix(s: string)
    ensures TrimRight(s) == s[..|TrimRight(s)|]
  {
    if s != [] && IsTrimChar(s[|s| - 1]) {
      TrimRightIsPrefix(s[..|s| - 1]);
    }
  }

  /** `a..b` is a slice of `s` outside which every character is a trim character. */
  predicate OnlyTrimOutside(s: string, a: int, b: int) {
    && 0 <= a <= b <= |s|
    && (forall i :: 0 <= i < a ==> IsTrimChar(s[i]))
    && (forall i :: b <= i < |s| ==> IsTrimChar(s[i]))
  }

  /** rtrim(ltrim(s)) is a slice of `s` with only trim characters outside
      it, and its first character is the first one ltrim() kept. */
  lemma TrimBothEnds(s: string)
    ensures var r := TrimRight(TrimLeft(s));
      && (r == [] || r[0] == TrimLeft(s)[0])
      && exists a, b :: OnlyTrimOutside(s, a, b) && r == s[a..b]
  {
    var l := TrimLeft(s);
    TrimLeftIsSuffix(s);
    TrimRightIsPrefix(l);
    var r := TrimRight(l);
    var a := |s| - |l|;
    var b := a + |r|;
    assert l == s[a..];
    assert r == l[..|r|];
    assert s[a..][..|r|] == s[a..b];
    forall i | b <= i < |s|
      ensures IsTrimChar(s[i])
    {
      assert s[i] == l[i - a];
    }
    assert OnlyTrimOutside(s, a, b);
  }

  /** trim(): the result is the middle of `s` left once the leading and
      trailing runs of trim characters are dropped; it starts and ends with
      a character that is not a trim character. */
  function Trim(s: string): (r: string)
    ensures |r| <= |s|
    ensures r == [] || (!IsTrimChar(r[0]) && !IsTrimChar(r[|r| - 1]))
    ensures exists a, b :: OnlyTrimOutside(s, a, b) && r == s[a..b]
  {
    TrimBothEnds(s);
    TrimRight(TrimLeft(s))
  }

  /** A string that neither starts nor ends with a trim character is left alone by trim(). */
  lemma TrimKeepsTrimmed(s: string)
    requires s == [] || (!IsTrimChar(s[0]) && !IsTrimChar(s[|s| - 1]))
    ensures Trim(s) == s
  {
  }

  /** trim() is idempotent. */
  lemma TrimIdempotent(s: string)
    ensures Trim(Trim(s)) == Trim(s)
  {
    TrimKeepsTrimmed(Trim(s));
  }
}
