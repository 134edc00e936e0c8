/** Nested YAML documents and dotted-path lookup: `search_path` of
    AEFM/utils/kubernetes_YAMLs.py with its default callbacks, which stop at the
    first missing key or index. */
module YamlDocs {
  import opened Wrappers
  import opened Strings
  import opened OrderedMaps

  /** A loaded YAML value. Mappings keep their insertion order. */
  datatype Doc =
    | Null
    | Bool(b: bool)
    | Int(i: int)
    | Float(f: real)
    | Str(s: string)
    | List(items: seq<Doc>)
    | Map(entries: OMap<string, Doc>)

  /** One dot-separated step of a path: `name` or `name[index]`. */
  datatype Segment = Key(name: string) | Indexed(name: string, index: nat)

  predicate IsDigit(ch: char)
  {
    '0' <= ch <= '9'
  }

  /** The end of the run of digits that starts at `i`. */
  function DigitsEnd(s: string, i: nat): (k: nat)
    requires i <= |s|
    ensures i <= k <= |s|
    ensures forall j :: i <= j < k ==> IsDigit(s[j])
    ensures k == |s| || !IsDigit(s[k])
    decreases |s| - i
  {
    if i < |s| && IsDigit(s[i]) then DigitsEnd(s, i + 1) else i
  }

  /** Where `\[(\d+)\]` matching at `j` ends (the position of `]`), if it matches. */
  function BracketAt(s: string, j: nat): (r: Option<nat>)
    ensures r.Some? ==> j < r.value < |s| && s[j] == '[' && s[r.value] == ']' && j + 1 < r.value
    ensures r.Some? ==> forall t :: j < t < r.value ==> IsDigit(s[t])
  {
    if j < |s| && s[j] == '[' then
      var k := DigitsEnd(s, j + 1);
      if j + 1 < k < |s| && s[k] == ']' then Some(k) else None
    else None
  }

  /** The last position before `j` where `\[(\d+)\]` matches: the greedy `(.*)` of
      `(.*)\[(\d+)\]` backtracks from the end of the segment. */
  function LastBracket(s: string, j: nat): (r: Option<nat>)
    ensures r.Some? ==> r.value < j && BracketAt(s, r.value).Some?
    ensures r.Some? ==> forall t: nat :: r.value < t < j ==> BracketAt(s, t).None?
    ensures r.None? ==> forall t: nat :: t < j ==> BracketAt(s, t).None?
  {
    if j == 0 then None
    else if BracketAt(s, j - 1).Some? then Some(j - 1)
    else LastBracket(s, j - 1)
  }

  /** `re.search(r"(.*)\[(\d+)\]", prop)`: group 1 is everything before the last
      `[digits]`, group 2 its digits; text after the bracket is ignored. */
  function ParseSegment(prop: string): (seg: Segment)
    ensures '[' !in prop ==> seg == Key(prop)
    ensures seg.Key? ==> seg.name == prop
    ensures seg.Indexed? ==> |seg.name| < |prop| && prop[..|seg.name|] == seg.name && prop[|seg.name|] == '['
  {
    match LastBracket(prop, |prop|)
    case None => Key(prop)
    case Some(j) =>
      var k := BracketAt(prop, j).value;
      Indexed(prop[..j], ParseNat(prop[j + 1..k]))
  }

  /** A run of digits from `i` that stops at `k` ends at `k`. */
  lemma {:induction false} DigitsEndAt(s: string, i: nat, k: nat)
    requires i <= k <= |s| && (k == |s| || !IsDigit(s[k]))
    requires forall t :: i <= t < k ==> IsDigit(s[t])
    ensures DigitsEnd(s, i) == k
    decreases k - i
  {
    if i < k {
      DigitsEndAt(s, i + 1, k);
    }
  }

  /** A match at `j` with none after it is the one the greedy `(.*)` takes. */
  lemma OnlyBracketAfter(s: string, j: nat)
    requires BracketAt(s, j).Some? && forall t: nat :: j < t < |s| ==> BracketAt(s, t).None?
    ensures LastBracket(s, |s|) == Some(j)
  {
  }

  /** The characters of `name[digits]`. */
  lemma IndexedShape(name: string, digits: string)
    requires |digits| > 0 && IsDigits(digits)
    ensures var s := name + "[" + digits + "]";
      |s| == |name| + |digits| + 2 && s[|name|] == '[' && s[|s| - 1] == ']'
      && (forall t :: |name| < t < |s| - 1 ==> IsDigit(s[t]))
      && s[|name| + 1..|s| - 1] == digits && s[..|name|] == name
  {
    var s := name + "[" + digits + "]";
    forall t | |name| < t < |s| - 1 ensures IsDigit(s[t]) {
      assert s[t] == digits[t - |name| - 1];
    }
  }

  /** A `name[i]` segment parses back to its name and index. */
  lemma ParseIndexed(name: string, i: nat)
    ensures ParseSegment(name + "[" + NatToString(i) + "]") == Indexed(name, i)
  {
    var digits := NatToString(i);
    var s := name + "[" + digits + "]";
    var j := |name|;
    var close := |s| - 1;
    IndexedShape(name, digits);
    DigitsEndAt(s, j + 1, close);
    assert BracketAt(s, j) == Some(close);
    forall t: nat | j < t < |s| ensures BracketAt(s, t).None? {
      assert s[t] != '[';
    }
    OnlyBracketAfter(s, j);
    ParseNatToString(i);
  }

  /** Every part of a dotted path, parsed. */
  function ParseAll(props: seq<string>): (segs: seq<Segment>)
    ensures |segs| == |props|
    ensures forall i :: 0 <= i < |props| ==> segs[i] == ParseSegment(props[i])
  {
    seq(|props|, i requires 0 <= i < |props| => ParseSegment(props[i]))
  }

  /** Parsing distributes over the last part. */
  lemma ParseAllSnoc(props: seq<string>)
    requires |props| > 0
    ensures ParseAll(props) == ParseAll(props[..|props| - 1]) + [ParseSegment(props[|props| - 1])]
  {
    var n := |props|;
    var whole := ParseAll(props[..n - 1]) + [ParseSegment(props[n - 1])];
    forall i | 0 <= i < n ensures ParseAll(props)[i] == whole[i] {
      if i < n - 1 {
        assert props[..n - 1][i] == props[i];
      }
    }
  }

  /** `path.split(".")`, parsed. */
  function Segments(path: string): seq<Segment>
  {
    ParseAll(Split(path, '.'))
  }

  /** A path of plain keys parses to those keys. */
  lemma SegmentsOfKeys(a: string, b: string)
    requires '.' !in a && '[' !in a && '.' !in b && '[' !in b
    ensures Segments(a) == [Key(a)]
    ensures Segments(a + "." + b) == [Key(a), Key(b)]
  {
    SplitNoSeparator(a, '.');
    SplitNoSeparator(b, '.');
    SplitAround(a, b, '.');
  }

  function Names(segs: seq<Segment>): (names: seq<string>)
    ensures |names| == |segs|
    ensures forall i :: 0 <= i < |segs| ==> names[i] == segs[i].name
  {
    seq(|segs|, i requires 0 <= i < |segs| => segs[i].name)
  }

  predicate OccursAt(t: string, s: string, i: int)
  {
    0 <= i <= |s| - |t| && s[i..i + |t|] == t
  }

  /** A substring test, `t in s` for strings. */
  predicate IsSubstring(t: string, s: string)
  {
    exists i | 0 <= i <= |s| - |t| :: OccursAt(t, s, i)
  }

  /** `name in obj`, then `obj[name]` when it is there: Ok(None) when the name is
      absent. Membership of a string in an int, float, bool or None, and
      subscripting a list or a string by a string, raise TypeError. */
  function Lookup(obj: Doc, name: string): (r: Result<Option<Doc>>)
    ensures r == Ok(None) <==>
      (obj.Map? && Get(obj.entries, name).None?) || (obj.List? && Str(name) !in obj.items)
      || (obj.Str? && !IsSubstring(name, obj.s))
    ensures r.Ok? && r.value.Some? <==> obj.Map? && Get(obj.entries, name).Some?
    ensures r.Ok? && r.value.Some? ==> r.value.value == Get(obj.entries, name).value
    ensures r.Err? ==> r.error == TypeError
  {
    match obj
    case Map(entries) =>
      (match Get(entries, name)
       case None => Ok(None)
       case Some(v) => Ok(Some(v)))
    case List(items) => if Str(name) in items then Err(TypeError) else Ok(None)
    case Str(s) => if IsSubstring(name, s) then Err(TypeError) else Ok(None)
    case _ => Err(TypeError)
  }

  /** `obj[key]` for a string key: KeyError on a mapping without it, TypeError on
      anything but a mapping. */
  function Subscript(obj: Doc, key: string): (r: Result<Doc>)
    ensures r.Ok? <==> obj.Map? && Get(obj.entries, key).Some?
    ensures r.Ok? ==> r.value == Get(obj.entries, key).value
    ensures r.Err? ==> r.error == (if obj.Map? then KeyError else TypeError)
  {
    if !obj.Map? then Err(TypeError)
    else match Get(obj.entries, key)
      case None => Err(KeyError)
      case Some(v) => Ok(v)
  }

  /** The value at `segs`, following only keys that exist and indices inside their
      lists: the reference meaning of a path. */
  function At(doc: Doc, segs: seq<Segment>): Option<Doc>
    decreases |segs|
  {
    if |segs| == 0 then Some(doc)
    else if !doc.Map? then None
    else
      match Get(doc.entries, segs[0].name)
      case None => None
      case Some(v) =>
        if segs[0].Key? then At(v, segs[1..])
        else if v.List? && segs[0].index < |v.items| then At(v.items[segs[0].index], segs[1..])
        else None
  }

  /** The loop of `search_path` from `partial`, with `searched` already walked:
      `(success, last object, path)`, where `path` is the whole path on success and
      the searched prefix otherwise. */
  function SearchFrom(partial: Doc, segs: seq<Segment>, searched: seq<string>, full: string): Result<(bool, Doc, string)>
    decreases |segs|
  {
    if |segs| == 0 then Ok((true, partial, full))
    else
      var seg := segs[0];
      match Lookup(partial, seg.name)
      case Err(e) => Err(e)
      case Ok(None) => Ok((false, partial, Join(".", searched)))
      case Ok(Some(v)) =>
        if seg.Key? then SearchFrom(v, segs[1..], searched + [seg.name], full)
        else if !v.List? then Err(TypeError)
        else if |v.items| <= seg.index then Ok((false, partial, Join(".", searched)))
        else SearchFrom(v.items[seg.index], segs[1..], searched + [seg.name], full)
  }

  /** `search_path(obj, path)` with the default callbacks. */
  function Search(obj: Doc, path: string): Result<(bool, Doc, string)>
  {
    SearchFrom(obj, Segments(path), [], path)
  }

  /** A path that resolves is found with its value and the whole path; a search that
      succeeds has resolved the path. */
  lemma {:induction false} SearchFound(doc: Doc, segs: seq<Segment>, searched: seq<string>, full: string)
    ensures At(doc, segs).Some? ==> SearchFrom(doc, segs, searched, full) == Ok((true, At(doc, segs).value, full))
    ensures SearchFrom(doc, segs, searched, full).Ok? && SearchFrom(doc, segs, searched, full).value.0 ==>
      At(doc, segs) == Some(SearchFrom(doc, segs, searched, full).value.1)
    decreases |segs|
  {
    if |segs| > 0 && doc.Map? {
      match Get(doc.entries, segs[0].name)
      case None =>
      case Some(v) =>
        if segs[0].Key? {
          SearchFound(v, segs[1..], searched + [segs[0].name], full);
        } else if v.List? && segs[0].index < |v.items| {
          SearchFound(v.items[segs[0].index], segs[1..], searched + [segs[0].name], full);
        }
    }
  }

  /** A search that fails stops at the deepest object it reached, after resolving a
      proper prefix of the path, and reports that prefix. */
  lemma {:induction false} SearchStops(doc: Doc, segs: seq<Segment>, searched: seq<string>, full: string, last: Doc, prefix: string)
    requires SearchFrom(doc, segs, searched, full) == Ok((false, last, prefix))
    ensures exists k :: 0 <= k < |segs| && At(doc, segs[..k]) == Some(last) && prefix == Join(".", searched + Names(segs[..k]))
    decreases |segs|
  {
    var seg := segs[0];
    var found := Lookup(doc, seg.name);
    assert found.Ok?;
    if found.value.None? || (seg.Indexed? && |found.value.value.items| <= seg.index) {
      assert segs[..0] == [] && searched + Names(segs[..0]) == searched;
    } else {
      var v := found.value.value;
      var next := if seg.Key? then v else v.items[seg.index];
      SearchStops(next, segs[1..], searched + [seg.name], full, last, prefix);
      var k :| 0 <= k < |segs[1..]| && At(next, segs[1..][..k]) == Some(last)
        && prefix == Join(".", searched + [seg.name] + Names(segs[1..][..k]));
      PrefixStep(doc, segs, next, k);
      Assoc(searched, [seg.name], Names(segs[1..][..k]));
      var k' := k + 1;
      assert 0 <= k' < |segs| && At(doc, segs[..k']) == Some(last)
        && prefix == Join(".", searched + Names(segs[..k']));
    }
  }

  /** Walking `k + 1` segments is one step into `next`, then `k` more. */
  lemma PrefixStep(doc: Doc, segs: seq<Segment>, next: Doc, k: nat)
    requires k + 1 <= |segs| && doc.Map? && Get(doc.entries, segs[0].name).Some?
    requires segs[0].Key? ==> next == Get(doc.entries, segs[0].name).value
    requires segs[0].Indexed? ==> (Get(doc.entries, segs[0].name).value.List? &&
      segs[0].index < |Get(doc.entries, segs[0].name).value.items| &&
      next == Get(doc.entries, segs[0].name).value.items[segs[0].index])
    ensures At(doc, segs[..k + 1]) == At(next, segs[1..][..k])
    ensures Names(segs[..k + 1]) == [segs[0].name] + Names(segs[1..][..k])
  {
    assert segs[..k + 1][0] == segs[0] && segs[..k + 1][1..] == segs[1..][..k];
  }

  /** The only error the default search raises is the TypeError of indexing an
      existing value that is not a list (or of looking inside a scalar). */
  lemma {:induction false} SearchErrors(doc: Doc, segs: seq<Segment>, searched: seq<string>, full: string)
    requires SearchFrom(doc, segs, searched, full).Err?
    ensures SearchFrom(doc, segs, searched, full).error == TypeError
    decreases |segs|
  {
    var seg := segs[0];
    match Lookup(doc, seg.name)
    case Err(_) =>
    case Ok(None) =>
    case Ok(Some(v)) =>
      if seg.Key? {
        SearchErrors(v, segs[1..], searched + [seg.name], full);
      } else if v.List? && seg.index < |v.items| {
        SearchErrors(v.items[seg.index], segs[1..], searched + [seg.name], full);
      }
  }

  /** `name[i]` on an existing value that is not a list raises TypeError. */
  lemma IndexingNonList(doc: Doc, name: string, i: nat, rest: seq<Segment>, searched: seq<string>, full: string)
    requires doc.Map? && Get(doc.entries, name).Some? && !Get(doc.entries, name).value.List?
    ensures SearchFrom(doc, [Indexed(name, i)] + rest, searched, full) == Err(TypeError)
  {
    assert ([Indexed(name, i)] + rest)[0] == Indexed(name, i);
  }

  /** `search_path(obj, path)`: walks the path one segment at a time, advancing the
      current object. */
  method SearchPath(obj: Doc, path: string) returns (r: Result<(bool, Doc, string)>)
    ensures r == Search(obj, path)
  {
    var partial := obj;
    var pathList := Split(path, '.');
    var searched: seq<string> := [];
    ghost var segs := ParseAll(pathList);
    for k := 0 to |pathList|
      invariant SearchFrom(partial, segs[k..], searched, path) == Search(obj, path)
    {
      assert segs[k..][0] == ParseSegment(pathList[k]) && segs[k..][1..] == segs[k + 1..];
      var seg := ParseSegment(pathList[k]);
      var found := Lookup(partial, seg.name);
      if found.Err? {
        return Err(found.error);
      }
      if found.value.None? {
        return Ok((false, partial, Join(".", searched)));
      }
      var v := found.value.value;
      if seg.Indexed? {
        if !v.List? {
          return Err(TypeError);
        }
        if |v.items| <= seg.index {
          return Ok((false, partial, Join(".", searched)));
        }
        partial := v.items[seg.index];
      } else {
        partial := v;
      }
      searched := searched + [seg.name];
    }
    JoinSplit(path, '.');
    return Ok((true, partial, Join(".", pathList)));
  }
}
