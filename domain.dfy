/** Entities shared by the client's components, the outcome of a backend call,
    and the JavaScript notion of whitespace that `trim()` and the regular
    expressions' `\s` both use. */
module Domain {

  datatype Option<+T> = None | Some(value: T)

  /** Outcome of one backend request: the payload of a resolved promise, or a
      rejection (network or server failure; its detail is only logged). */
  datatype Fetch<+T> = Fetched(value: T) | FetchFailed

  /** A project: identity, display name and the assistant model it uses. */
  datatype Project = Project(id: int, name: string, model: string)

  /** A chat session inside a project. */
  datatype Session = Session(id: int, projectId: int, name: string, createdAt: string, messageCount: nat)

  datatype Role = User | Assistant

  /** Where a message comes from: the server (with its id) or the client's own
      optimistic append (with a token no other element of the list carries). */
  datatype Origin = Server(id: int) | Local(token: nat)

  datatype Message = Message(origin: Origin, role: Role, content: string, timestamp: string)

  datatype UploadedFile = UploadedFile(id: int, projectId: int, filename: string, uploadedAt: string)

  /** The characters JavaScript counts as whitespace: the WhiteSpace and
      LineTerminator productions, matched by `\s` and removed by `trim()`. */
  predicate IsSpace(c: char)
  {
    c == '\t' || c == '\n' || c == '\U{B}' || c == '\U{C}' || c == '\r' || c == ' '
    || c == '\U{A0}' || c == '\U{1680}' || ('\U{2000}' <= c <= '\U{200A}')
    || c == '\U{2028}' || c == '\U{2029}' || c == '\U{202F}' || c == '\U{205F}'
    || c == '\U{3000}' || c == '\U{FEFF}'
  }

  /** Line terminators: where `^` and `$` match under the `m` flag, and what `.` refuses. */
  predicate IsLineTerminator(c: char)
  {
    c == '\n' || c == '\r' || c == '\U{2028}' || c == '\U{2029}'
  }

  predicate IsDigit(c: char)
  {
    '0' <= c <= '9'
  }

  /** A string whose `trim()` is empty, i.e. which JavaScript treats as falsy after trimming. */
  predicate IsBlank(s: string)
  {
    forall k :: 0 <= k < |s| ==> IsSpace(s[k])
  }

  function TrimStart(s: string): (r: string)
    ensures |r| <= |s| && r == s[|s| - |r|..]
    ensures r == [] || !IsSpace(r[0])
    ensures IsBlank(s[..|s| - |r|])
  {
    if s == [] || !IsSpace(s[0]) then s
    else
      var r := TrimStart(s[1..]);
      assert s[1..][..|s| - 1 - |r|] == s[1..|s| - |r|];
      r
  }

  function TrimEnd(s: string): (r: string)
    ensures |r| <= |s| && r == s[..|r|]
    ensures r == [] || !IsSpace(r[|r| - 1])
    ensures IsBlank(s[|r|..])
  {
    if s == [] || !IsSpace(s[|s| - 1]) then s
    else
      var r := TrimEnd(s[..|s| - 1]);
      assert s[..|s| - 1][|r|..] == s[|r|..|s| - 1];
      r
  }

  /** `String.prototype.trim`: both ends stripped of whitespace. */
  function Trim(s: string): (r: string)
  {
    TrimEnd(TrimStart(s))
  }

  /** The trimmed string is a slice of the input that neither starts nor ends
      with whitespace, and only whitespace was removed on either side. */
  lemma TrimIsCore(s: string)
    ensures var r := Trim(s);
      exists a: nat, b: nat :: a <= b <= |s| && r == s[a..b] && IsBlank(s[..a]) && IsBlank(s[b..])
    ensures var r := Trim(s); r == [] || (!IsSpace(r[0]) && !IsSpace(r[|r| - 1]))
  {
    var t := TrimStart(s);
    var r := TrimEnd(t);
    var a := |s| - |t|;
    var b := a + |r|;
    TrimSlices(s, t, r);
    assert IsBlank(s[..a]) && IsBlank(s[b..]);
    assert a <= b <= |s| && r == s[a..b] && IsBlank(s[..a]) && IsBlank(s[b..]);
  }

  /** Where the two trimmed strings sit inside the input. */
  lemma TrimSlices(s: string, t: string, r: string)
    requires |t| <= |s| && |r| <= |t| && t == s[|s| - |t|..] && r == t[..|r|]
    ensures var a := |s| - |t|; r == s[a..a + |r|] && s[a + |r|..] == t[|r|..]
  {
    var a := |s| - |t|;
    assert s[a..][..|r|] == s[a..a + |r|];
    assert s[a..][|r|..] == s[a + |r|..];
  }

  /** A string trims to the empty string exactly when all its characters are whitespace. */
  lemma TrimEmptyIffBlank(s: string)
    ensures Trim(s) == [] <==> IsBlank(s)
  {
    var t := TrimStart(s);
    if Trim(s) == [] {
      assert IsBlank(t[0..]);
      assert s == s[..|s| - |t|] + t;
    } else {
      var c := Trim(s)[0];
      assert c == t[0];
      assert t == s[|s| - |t|..];
      assert s[|s| - |t|] == c;
    }
  }
}
