/** Values shared by every module of the model: optional and fallible results,
    the HTTP errors the endpoints raise, and Python's `str.strip`. */
module Common {

  datatype Option<T> = None | Some(value: T)

  datatype Result<T, E> = Ok(value: T) | Err(error: E)

  /** The `detail` carried by an `HTTPException`: absent, a plain text, the
      `{code, message}` dictionary of a permission denial, or the
      `{message, missing_tag_ids}` dictionary of a tag validation failure. */
  datatype Detail =
    | NoDetail
    | Text(text: string)
    | Coded(code: string, message: string)
    | MissingIds(message: string, ids: seq<string>)

  datatype HttpError = HttpError(status: int, detail: Detail)

  const Forbidden := 403
  const NotFound := 404
  const Conflict := 409
  const Unprocessable := 422
  const BadGateway := 502

  /** What `uuid4().hex` yields: 32 lower-case hexadecimal digits. */
  predicate IsHexToken(t: string)
  {
    |t| == 32 && forall i :: 0 <= i < |t| ==> ('0' <= t[i] <= '9' || 'a' <= t[i] <= 'f')
  }

  /** The character classes `str.strip` is used with in the source: the
      default (whitespace) and `strip("-")`. */
  datatype StripClass = Whitespace | Dash

  /** Python's `str.isspace` restricted to the Latin-1 range. */
  predicate IsSpace(c: char)
  {
    c == ' ' || ('\t' <= c <= '\r') || ('\U{1C}' <= c <= '\U{1F}') || c == '\U{85}' || c == '\U{A0}'
  }

  predicate InClass(c: char, k: StripClass)
  {
    match k
    case Whitespace => IsSpace(c)
    case Dash => c == '-'
  }

  /** `s.lstrip(...)`: drops the leading characters of class `k`. */
  function TrimLeft(s: string, k: StripClass): (r: string)
    ensures |r| <= |s| && r == s[|s| - |r|..]
    ensures r == [] || !InClass(r[0], k)
  {
    if s != [] && InClass(s[0], k) then TrimLeft(s[1..], k) else s
  }

  /** `s.rstrip(...)`: drops the trailing characters of class `k`. */
  function TrimRight(s: string, k: StripClass): (r: string)
    ensures |r| <= |s| && r == s[..|r|]
    ensures r == [] || !InClass(r[|r| - 1], k)
  {
    if s != [] && InClass(s[|s| - 1], k) then TrimRight(s[..|s| - 1], k) else s
  }

  /** Everything `lstrip` drops belongs to the class. */
  lemma {:induction false} TrimLeftDrops(s: string, k: StripClass)
    ensures forall i :: 0 <= i < |s| - |TrimLeft(s, k)| ==> InClass(s[i], k)
  {
    if s != [] && InClass(s[0], k) {
      TrimLeftDrops(s[1..], k);
      forall i | 1 <= i < |s| - |TrimLeft(s, k)| ensures InClass(s[i], k) {
        assert s[i] == s[1..][i - 1];
      }
    }
  }

  /** Everything `rstrip` drops belongs to the class. */
  lemma {:induction false} TrimRightDrops(s: string, k: StripClass)
    ensures forall i :: |TrimRight(s, k)| <= i < |s| ==> InClass(s[i], k)
  {
    if s != [] && InClass(s[|s| - 1], k) {
      TrimRightDrops(s[..|s| - 1], k);
      forall i | |TrimRight(s, k)| <= i < |s| - 1 ensures InClass(s[i], k) {
        assert s[i] == s[..|s| - 1][i];
      }
    }
  }

  /** `s.strip()` (k == Whitespace) or `s.strip("-")` (k == Dash). */
  function Strip(s: string, k: StripClass): (r: string)
    ensures r == [] || (!InClass(r[0], k) && !InClass(r[|r| - 1], k))
  {
    TrimRight(TrimLeft(s, k), k)
  }

  /** Where the stripped result starts inside the input. */
  function StripOffset(s: string, k: StripClass): (a: nat)
    ensures a + |Strip(s, k)| <= |s|
  {
    |s| - |TrimLeft(s, k)|
  }

  /** What `TrimRight` cuts off after `TrimLeft` lies in the class. */
  lemma StripRightCut(s: string, k: StripClass)
    ensures var l := TrimLeft(s, k);
      forall i :: |s| - |l| + |TrimRight(l, k)| <= i < |s| ==> InClass(s[i], k)
  {
    var l := TrimLeft(s, k);
    var a := |s| - |l|;
    var n := |TrimRight(l, k)|;
    TrimRightDrops(l, k);
    forall i | a + n <= i < |s| ensures InClass(s[i], k) {
      assert s[i] == l[i - a];
    }
  }

  /** Stripping keeps a contiguous slice of the input, and everything cut
      off on either side belongs to the stripped class. */
  lemma StripIsSlice(s: string, k: StripClass)
    ensures Strip(s, k) == s[StripOffset(s, k)..StripOffset(s, k) + |Strip(s, k)|]
    ensures forall i :: 0 <= i < |s| && !(StripOffset(s, k) <= i < StripOffset(s, k) + |Strip(s, k)|) ==> InClass(s[i], k)
  {
    SliceOfSlice(s, TrimLeft(s, k), Strip(s, k), StripOffset(s, k));
    TrimLeftDrops(s, k);
    StripRightCut(s, k);
  }

  /** A prefix of a suffix is a middle slice. */
  lemma SliceOfSlice(s: string, l: string, r: string, a: nat)
    requires a <= |s| && l == s[a..] && |r| <= |l| && r == l[..|r|]
    ensures r == s[a..a + |r|]
  {
  }

  /** A string that has nothing to strip at either end is left unchanged. */
  lemma StripFixpoint(s: string, k: StripClass)
    requires s == [] || (!InClass(s[0], k) && !InClass(s[|s| - 1], k))
    ensures Strip(s, k) == s
  {
  }

  /** `s.strip()` is idempotent. */
  lemma StripIdempotent(s: string, k: StripClass)
    ensures Strip(Strip(s, k), k) == Strip(s, k)
  {
    StripFixpoint(Strip(s, k), k);
  }
}
