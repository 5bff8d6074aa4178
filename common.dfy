/** Small helpers shared by the server models and the client screens. */
module Common {

  datatype Option<T> = None | Some(value: T)

  datatype Result<T, E> = Ok(value: T) | Err(error: E)

  /** A browser File as the upload handlers inspect it: its MIME type and its size in bytes. */
  datatype UploadFile = UploadFile(mimeType: string, size: nat)

  /** The MIME types every image upload in the client accepts. */
  const ImageMimeTypes: seq<string> := ["image/jpeg", "image/png", "image/jpg"]

  const MiB: nat := 1024 * 1024

  predicate IsImageType(f: UploadFile)
  {
    f.mimeType in ImageMimeTypes
  }

  /** JavaScript's Array.prototype.filter: the elements of xs that keep accepts, in order. */
  function Filter<T(!new)>(xs: seq<T>, keep: T -> bool): (r: seq<T>)
    ensures |r| <= |xs|
    ensures forall x :: x in r <==> x in xs && keep(x)
  {
    if xs == [] then []
    else (if keep(xs[0]) then [xs[0]] else []) + Filter(xs[1..], keep)
  }

  /** Filtering distributes over concatenation: the kept elements stay in their order. */
  lemma {:induction false} FilterConcat<T(!new)>(a: seq<T>, b: seq<T>, keep: T -> bool)
    ensures Filter(a + b, keep) == Filter(a, keep) + Filter(b, keep)
  {
    if a == [] {
      assert a + b == b;
    } else {
      assert (a + b)[1..] == a[1..] + b;
      FilterConcat(a[1..], b, keep);
    }
  }

  /** A filter that rejects nothing returns its input unchanged. */
  lemma {:induction false} FilterKeepsAll<T(!new)>(xs: seq<T>, keep: T -> bool)
    requires forall i :: 0 <= i < |xs| ==> keep(xs[i])
    ensures Filter(xs, keep) == xs
  {
    if xs != [] {
      FilterKeepsAll(xs[1..], keep);
    }
  }

  /** Appending one element to the input appends it to the output exactly when keep accepts it. */
  lemma {:induction false} FilterOfAppended<T(!new)>(xs: seq<T>, x: T, keep: T -> bool)
    ensures Filter(xs + [x], keep) == Filter(xs, keep) + (if keep(x) then [x] else [])
  {
    FilterConcat(xs, [x], keep);
    assert Filter([x], keep) == (if keep(x) then [x] else []) + Filter([x][1..], keep);
    assert [x][1..] == [];
  }

  /** JavaScript's `xs.filter((_, i) => i !== index)`: position index removed when it exists. */
  function RemoveAt<T>(xs: seq<T>, index: int): (r: seq<T>)
    ensures 0 <= index < |xs| ==> |r| == |xs| - 1
    ensures 0 <= index < |xs| ==> forall i :: 0 <= i < |r| ==> r[i] == (if i < index then xs[i] else xs[i + 1])
    ensures !(0 <= index < |xs|) ==> r == xs
  {
    if 0 <= index < |xs| then xs[..index] + xs[index + 1..] else xs
  }

  /** JavaScript's `xs.map(x => idOf(x) === id ? updated : x)`: every element with the id is replaced. */
  function ReplaceById<T>(xs: seq<T>, idOf: T -> string, id: string, updated: T): (r: seq<T>)
    ensures |r| == |xs|
    ensures forall i :: 0 <= i < |r| ==> r[i] == (if idOf(xs[i]) == id then updated else xs[i])
  {
    if xs == [] then [] else [if idOf(xs[0]) == id then updated else xs[0]] + ReplaceById(xs[1..], idOf, id, updated)
  }

  /** Replacing an id nobody carries changes nothing. */
  lemma ReplaceAbsentId<T>(xs: seq<T>, idOf: T -> string, id: string, updated: T)
    requires forall i :: 0 <= i < |xs| ==> idOf(xs[i]) != id
    ensures ReplaceById(xs, idOf, id, updated) == xs
  {
    var r := ReplaceById(xs, idOf, id, updated);
    assert forall i :: 0 <= i < |r| ==> r[i] == xs[i];
  }

  /** A second replacement with the same element changes nothing more, as long as it keeps its id. */
  lemma ReplaceByIdTwice<T>(xs: seq<T>, idOf: T -> string, id: string, updated: T)
    requires idOf(updated) == id
    ensures ReplaceById(ReplaceById(xs, idOf, id, updated), idOf, id, updated) == ReplaceById(xs, idOf, id, updated)
  {
    var once := ReplaceById(xs, idOf, id, updated);
    var twice := ReplaceById(once, idOf, id, updated);
    assert forall i :: 0 <= i < |twice| ==> twice[i] == once[i];
  }

  // -------------------------------------------------------------- trimming

  /** The characters `String.prototype.trim` removes: white space and line terminators. */
  predicate IsWhitespace(c: char)
  {
    || c == ' ' || c == '\t' || c == '\n' || c == '\r'
    || c as int == 0x0B || c as int == 0x0C || c as int == 0xA0 || c as int == 0x1680
    || (0x2000 <= c as int <= 0x200A)
    || c as int == 0x2028 || c as int == 0x2029 || c as int == 0x202F || c as int == 0x205F
    || c as int == 0x3000 || c as int == 0xFEFF
  }

  predicate AllWhitespace(s: string)
  {
    forall i :: 0 <= i < |s| ==> IsWhitespace(s[i])
  }

  /** Neither end of s is white space. */
  predicate IsTrimmed(s: string)
  {
    s == [] || (!IsWhitespace(s[0]) && !IsWhitespace(s[|s| - 1]))
  }

  /** s without its leading white space. */
  function TrimStart(s: string): (r: string)
    ensures |r| <= |s|
    ensures r == [] || !IsWhitespace(r[0])
    ensures s == [] || !IsWhitespace(s[0]) ==> r == s
    decreases |s|
  {
    if s != [] && IsWhitespace(s[0]) then TrimStart(s[1..]) else s
  }

  /** s without its trailing white space. */
  function TrimEnd(s: string): (r: string)
    ensures |r| <= |s|
    ensures r == [] || !IsWhitespace(r[|r| - 1])
    ensures r == [] || r[0] == s[0]
    ensures s == [] || !IsWhitespace(s[|s| - 1]) ==> r == s
    decreases |s|
  {
    if s != [] && IsWhitespace(s[|s| - 1]) then TrimEnd(s[..|s| - 1]) else s
  }

  /** TrimStart keeps a suffix and drops only white space. */
  lemma {:induction false} TrimStartDrops(s: string)
    ensures var r := TrimStart(s); r == s[|s| - |r|..] && AllWhitespace(s[..|s| - |r|])
    decreases |s|
  {
    if s != [] && IsWhitespace(s[0]) {
      TrimStartDrops(s[1..]);
      var r := TrimStart(s[1..]);
      assert s[..|s| - |r|] == [s[0]] + s[1..][..|s| - 1 - |r|];
    }
  }

  /** TrimEnd keeps a prefix and drops only white space. */
  lemma {:induction false} TrimEndDrops(s: string)
    ensures var r := TrimEnd(s); r == s[..|r|] && AllWhitespace(s[|r|..])
    decreases |s|
  {
    if s != [] && IsWhitespace(s[|s| - 1]) {
      TrimEndDrops(s[..|s| - 1]);
      var r := TrimEnd(s[..|s| - 1]);
      assert s[|r|..] == s[..|s| - 1][|r|..] + [s[|s| - 1]];
    }
  }

  /** `String.prototype.trim`: the leading, then the trailing white space removed. */
  function Trim(s: string): (r: string)
    ensures IsTrimmed(r)
    ensures IsTrimmed(s) ==> r == s
  {
    TrimEnd(TrimStart(s))
  }

  /** Trimming leaves nothing exactly when the string is all white space. */
  lemma TrimBlank(s: string)
    ensures Trim(s) == [] <==> AllWhitespace(s)
  {
    var t := TrimStart(s);
    var r := TrimEnd(t);
    TrimStartDrops(s);
    TrimEndDrops(t);
    assert r == [] ==> t[|r|..] == t;
    assert t != [] ==> t[0] == s[|s| - |t|];
  }
}
