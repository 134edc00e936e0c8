/** Path-based editing: `_edit`, `_mapping_edit` and `_conditional_edit` of
    AEFM/utils/kubernetes_YAMLs.py, and `update` of AEFM/cli/utils.py, which is the
    same algorithm as `_edit`. Documents are values: an edit returns the edited
    document. */
module YamlEdit {
  import opened Wrappers
  import opened Strings
  import opened OrderedMaps
  import opened YamlDocs

  /** The final assignment of `_edit` on `obj`, the object the walk ended at.
      `name[i]` on an existing name compares the index, still a string, with an
      integer when `asWritten` holds; otherwise it replaces item `i`, or appends
      when `i` is the length. */
  function SetLast(obj: Doc, last: Segment, value: Doc, asWritten: bool): (r: Result<Doc>)
    ensures r.Ok? ==> obj.Map? && r.value.Map?
  {
    match last
    case Key(name) =>
      if obj.Map? then Ok(Map(Put(obj.entries, name, value))) else Err(TypeError)
    case Indexed(name, i) =>
      match Lookup(obj, name)
      case Err(e) => Err(e)
      case Ok(None) =>
        if i != 0 then Err(IndexError)
        else if obj.Map? then Ok(Map(Put(obj.entries, name, List([value]))))
        else Err(TypeError)
      case Ok(Some(v)) =>
        if asWritten || !v.List? then Err(TypeError)
        else if i < |v.items| then Ok(Map(Put(obj.entries, name, List(v.items[i := value]))))
        else if i == |v.items| then Ok(Map(Put(obj.entries, name, List(v.items + [value]))))
        else Err(IndexError)
  }

  /** The walk of `_edit` through `segs` with the creating callbacks, followed by
      the final assignment. A missing `k` becomes `{}`, a missing `k[0]` becomes
      `[{}]`, `k[len]` appends `{}`; any other index past the end raises
      IndexError. */
  function Descend(partial: Doc, segs: seq<Segment>, last: Segment, value: Doc, asWritten: bool): (r: Result<Doc>)
    ensures r.Ok? ==> partial.Map? && r.value.Map?
    decreases |segs|
  {
    if |segs| == 0 then SetLast(partial, last, value, asWritten)
    else
      var seg := segs[0];
      match Lookup(partial, seg.name)
      case Err(e) => Err(e)
      case Ok(None) =>
        if seg.Indexed? && seg.index != 0 then Err(IndexError)
        else if !partial.Map? then Err(TypeError)
        else
          (match Descend(Map([]), segs[1..], last, value, asWritten)
           case Err(e) => Err(e)
           case Ok(child) => Ok(Map(Put(partial.entries, seg.name, if seg.Key? then child else List([child])))))
      case Ok(Some(v)) =>
        if seg.Key? then
          (match Descend(v, segs[1..], last, value, asWritten)
           case Err(e) => Err(e)
           case Ok(child) => Ok(Map(Put(partial.entries, seg.name, child))))
        else if !v.List? then Err(TypeError)
        else if |v.items| < seg.index then Err(IndexError)
        else if |v.items| == seg.index then
          (match Descend(Map([]), segs[1..], last, value, asWritten)
           case Err(e) => Err(e)
           case Ok(child) => Ok(Map(Put(partial.entries, seg.name, List(v.items + [child])))))
        else
          (match Descend(v.items[seg.index], segs[1..], last, value, asWritten)
           case Err(e) => Err(e)
           case Ok(child) => Ok(Map(Put(partial.entries, seg.name, List(v.items[seg.index := child])))))
  }

  /** `_edit(yaml_obj, path, value)`: a one-part path is assigned on the document
      itself; otherwise the walk is over `".".join(path[:-1])`. */
  function EditWith(doc: Doc, path: string, value: Doc, asWritten: bool): Result<Doc>
  {
    EditParts(doc, Split(path, '.'), value, asWritten)
  }

  /** `_edit` on the parts of the split path. */
  function EditParts(doc: Doc, parts: seq<string>, value: Doc, asWritten: bool): Result<Doc>
    requires |parts| > 0
  {
    var last := ParseSegment(parts[|parts| - 1]);
    if |parts| == 1 then SetLast(doc, last, value, asWritten)
    else Descend(doc, Segments(Join(".", parts[..|parts| - 1])), last, value, asWritten)
  }

  /** `_edit` exactly as written, including the comparison of a string index with
      an integer. Where it succeeds, `value` sits at the path and every path that
      branches off it reads as before. */
  function EditAsWritten(doc: Doc, path: string, value: Doc): (r: Result<Doc>)
    ensures r.Ok? ==> At(r.value, Segments(path)) == Some(value)
    ensures r.Ok? ==> forall p :: Beside(p, Segments(path)) ==> At(r.value, p) == At(doc, p)
  {
    var r := EditWith(doc, path, value, true);
    if r.Err? then r
    else
      EditPartsAgree(doc, Split(path, '.'), value);
      EditSegments(path);
      EditPartsSets(doc, Split(path, '.'), value);
      assert forall p :: Beside(p, Segments(path)) ==> At(r.value, p) == At(doc, p) by {
        forall p | Beside(p, Segments(path)) ensures At(r.value, p) == At(doc, p) {
          EditKeepsBeside(doc, path, value, true, p);
        }
      }
      r
  }

  /** `_edit` with the index of a bracketed final segment read as an integer: it
      agrees with the code as written wherever that succeeds, and only a mapping
      document can be edited. */
  function Edit(doc: Doc, path: string, value: Doc): (r: Result<Doc>)
    ensures EditAsWritten(doc, path, value).Ok? ==> r == EditAsWritten(doc, path, value)
    ensures r.Ok? ==> doc.Map? && r.value.Map?
  {
    EditPartsAgree(doc, Split(path, '.'), value);
    EditWith(doc, path, value, false)
  }

  /** The walk reads the final index the same way in both readings; only the final
      assignment differs, and where the as-written one succeeds the two agree. */
  lemma {:induction false} DescendAgrees(partial: Doc, segs: seq<Segment>, last: Segment, value: Doc)
    requires Descend(partial, segs, last, value, true).Ok?
    ensures Descend(partial, segs, last, value, false) == Descend(partial, segs, last, value, true)
    decreases |segs|
  {
    if |segs| > 0 {
      var seg := segs[0];
      match Lookup(partial, seg.name)
      case Err(_) =>
      case Ok(None) =>
        DescendAgrees(Map([]), segs[1..], last, value);
      case Ok(Some(v)) =>
        if seg.Key? {
          DescendAgrees(v, segs[1..], last, value);
        } else if |v.items| == seg.index {
          DescendAgrees(Map([]), segs[1..], last, value);
        } else {
          DescendAgrees(v.items[seg.index], segs[1..], last, value);
        }
    }
  }

  lemma EditPartsAgree(doc: Doc, parts: seq<string>, value: Doc)
    requires |parts| > 0
    ensures EditParts(doc, parts, value, true).Ok? ==>
      EditParts(doc, parts, value, false) == EditParts(doc, parts, value, true)
  {
    if |parts| > 1 && EditParts(doc, parts, value, true).Ok? {
      DescendAgrees(doc, Segments(Join(".", parts[..|parts| - 1])), ParseSegment(parts[|parts| - 1]), value);
    }
  }

  /** The segments an edit of the split path goes through: the walked parts,
      then the final one. */
  function EditPath(parts: seq<string>): seq<Segment>
    requires |parts| > 0
  {
    (if |parts| == 1 then [] else Segments(Join(".", parts[..|parts| - 1])))
      + [ParseSegment(parts[|parts| - 1])]
  }

  /** The walk goes through exactly the parts before the last one. */
  lemma PrefixSegments(path: string)
    requires |Split(path, '.')| > 1
    ensures var parts := Split(path, '.');
      Segments(Join(".", parts[..|parts| - 1])) == ParseAll(parts[..|parts| - 1])
  {
    var parts := Split(path, '.');
    SplitParts(path, '.');
    assert forall p <- parts[..|parts| - 1] :: p in parts;
    SplitJoin(parts[..|parts| - 1], '.');
  }

  /** The path of an edit, parsed: the walked parts, then the final one. */
  lemma EditSegments(path: string)
    ensures Segments(path) == EditPath(Split(path, '.'))
  {
    var parts := Split(path, '.');
    ParseAllSnoc(parts);
    if |parts| == 1 {
      assert ParseAll(parts[..0]) == [];
    } else {
      PrefixSegments(path);
    }
  }

  /** After a successful edit the value sits at the path. */
  lemma {:induction false} DescendSets(partial: Doc, segs: seq<Segment>, last: Segment, value: Doc)
    requires Descend(partial, segs, last, value, false).Ok?
    ensures At(Descend(partial, segs, last, value, false).value, segs + [last]) == Some(value)
    decreases |segs|
  {
    var d := Descend(partial, segs, last, value, false).value;
    if |segs| == 0 {
      match last
      case Key(name) =>
        GetPutSame(partial.entries, name, value);
      case Indexed(name, i) =>
        var found := Lookup(partial, name);
        var stored :=
          if found.value.None? then List([value])
          else if i < |found.value.value.items| then List(found.value.value.items[i := value])
          else List(found.value.value.items + [value]);
        assert d == Map(Put(partial.entries, name, stored));
        GetPutSame(partial.entries, name, stored);
    } else {
      var seg := segs[0];
      assert (segs + [last])[0] == seg && (segs + [last])[1..] == segs[1..] + [last];
      var found := Lookup(partial, seg.name);
      var inner :=
        if found.value.None? || (seg.Indexed? && |found.value.value.items| == seg.index) then Map([])
        else if seg.Key? then found.value.value
        else found.value.value.items[seg.index];
      var child := Descend(inner, segs[1..], last, value, false).value;
      DescendSets(inner, segs[1..], last, value);
      var stored :=
        if found.value.None? then (if seg.Key? then child else List([child]))
        else if seg.Key? then child
        else if |found.value.value.items| == seg.index then List(found.value.value.items + [child])
        else List(found.value.value.items[seg.index := child]);
      assert d == Map(Put(partial.entries, seg.name, stored));
      GetPutSame(partial.entries, seg.name, stored);
    }
  }

  /** The walk and the final assignment of an edit put `value` at the path they
      go through. */
  lemma EditPartsSets(doc: Doc, parts: seq<string>, value: Doc)
    requires |parts| > 0 && EditParts(doc, parts, value, false).Ok?
    ensures At(EditParts(doc, parts, value, false).value, EditPath(parts)) == Some(value)
  {
    var last := ParseSegment(parts[|parts| - 1]);
    var walk := if |parts| == 1 then [] else Segments(Join(".", parts[..|parts| - 1]));
    assert EditParts(doc, parts, value, false) == Descend(doc, walk, last, value, false);
    DescendSets(doc, walk, last, value);
  }

  /** `_edit` puts `value` at `path`, and every path that branches off `path`
      reads as before. */
  lemma EditSets(doc: Doc, path: string, value: Doc)
    requires Edit(doc, path, value).Ok?
    ensures At(Edit(doc, path, value).value, Segments(path)) == Some(value)
    ensures forall p :: Beside(p, Segments(path)) ==> At(Edit(doc, path, value).value, p) == At(doc, p)
  {
    EditSegments(path);
    EditPartsSets(doc, Split(path, '.'), value);
    forall p | Beside(p, Segments(path))
      ensures At(Edit(doc, path, value).value, p) == At(doc, p)
    {
      EditKeepsBeside(doc, path, value, false, p);
    }
  }

  /** `p` branches off `target`: after a common prefix it names another key, or
      another item of the same list. A path that runs along `target` to its end,
      or switches between a key and an item of the same name, does not. */
  predicate Beside(p: seq<Segment>, target: seq<Segment>)
    decreases |p|
  {
    |p| > 0 && |target| > 0 &&
    (p[0].name != target[0].name
     || (p[0].Indexed? && target[0].Indexed? && p[0].name == target[0].name && p[0].index != target[0].index)
     || (p[0] == target[0] && Beside(p[1..], target[1..])))
  }

  /** Item `i` of a mapping entry, when the entry is a list that long. */
  function ItemAt(entry: Option<Doc>, i: nat): Option<Doc>
  {
    if entry.Some? && entry.value.List? && i < |entry.value.items| then Some(entry.value.items[i]) else None
  }

  /** What `At` reads below a mapping entry, for a path whose first part names
      that entry. */
  function Below(entry: Option<Doc>, p: seq<Segment>): Option<Doc>
    requires |p| > 0
  {
    if entry.None? then None
    else if p[0].Key? then At(entry.value, p[1..])
    else if ItemAt(entry, p[0].index).Some? then At(ItemAt(entry, p[0].index).value, p[1..])
    else None
  }

  /** Reading a path from a mapping goes through the entry its first part names. */
  lemma AtBelow(entries: OMap<string, Doc>, p: seq<Segment>)
    requires |p| > 0
    ensures At(Map(entries), p) == Below(Get(entries, p[0].name), p)
  {
  }

  /** Storing `stored` under `name` leaves a path reading as before when the path
      names another key, or an item the old and new entries share. */
  lemma PutBeside(entries: OMap<string, Doc>, name: string, stored: Doc, p: seq<Segment>)
    requires |p| > 0
    requires p[0].name != name ||
      (p[0].Indexed? && ItemAt(Get(entries, name), p[0].index) == ItemAt(Some(stored), p[0].index))
    ensures At(Map(Put(entries, name, stored)), p) == At(Map(entries), p)
  {
    AtBelow(entries, p);
    AtBelow(Put(entries, name, stored), p);
    if p[0].name != name {
      GetPutOther(entries, name, stored, p[0].name);
    } else {
      GetPutSame(entries, name, stored);
    }
  }

  /** Storing `stored` under the name of `p`'s first part: `p` then reads what
      `p[1..]` reads below the new entry. */
  lemma PutUnder(entries: OMap<string, Doc>, stored: Doc, p: seq<Segment>)
    requires |p| > 0
    ensures At(Map(Put(entries, p[0].name, stored)), p) == Below(Some(stored), p)
  {
    AtBelow(Put(entries, p[0].name, stored), p);
    GetPutSame(entries, p[0].name, stored);
  }

  /** The final assignment changes no path beside the last part. */
  lemma SetLastKeepsBeside(obj: Doc, last: Segment, value: Doc, asWritten: bool, p: seq<Segment>)
    requires SetLast(obj, last, value, asWritten).Ok? && Beside(p, [last])
    ensures At(SetLast(obj, last, value, asWritten).value, p) == At(obj, p)
  {
    var d := SetLast(obj, last, value, asWritten).value;
    assert !Beside(p[1..], [last][1..]);
    match last
    case Key(name) =>
      PutBeside(obj.entries, name, value, p);
    case Indexed(name, i) =>
      var found := Get(obj.entries, name);
      var stored :=
        if found.None? then List([value])
        else if i < |found.value.items| then List(found.value.items[i := value])
        else List(found.value.items + [value]);
      assert d == Map(Put(obj.entries, name, stored));
      PutBeside(obj.entries, name, stored, p);
  }

  /** The walk leaves a path that turns off at its first part reading as before:
      another key, or another item of the same list. */
  lemma DescendKeepsOther(partial: Doc, segs: seq<Segment>, last: Segment, value: Doc, asWritten: bool, p: seq<Segment>)
    requires |segs| > 0 && |p| > 0 && Descend(partial, segs, last, value, asWritten).Ok?
    requires p[0].name != segs[0].name ||
      (p[0].Indexed? && segs[0].Indexed? && p[0].index != segs[0].index)
    ensures At(Descend(partial, segs, last, value, asWritten).value, p) == At(partial, p)
  {
    var seg := segs[0];
    var d := Descend(partial, segs, last, value, asWritten).value;
    var found := Get(partial.entries, seg.name);
    if found.None? {
      var child := Descend(Map([]), segs[1..], last, value, asWritten).value;
      var stored := if seg.Key? then child else List([child]);
      assert d == Map(Put(partial.entries, seg.name, stored));
      PutBeside(partial.entries, seg.name, stored, p);
    } else if seg.Key? {
      var child := Descend(found.value, segs[1..], last, value, asWritten).value;
      assert d == Map(Put(partial.entries, seg.name, child));
      PutBeside(partial.entries, seg.name, child, p);
    } else {
      var items := found.value.items;
      if |items| == seg.index {
        var child := Descend(Map([]), segs[1..], last, value, asWritten).value;
        assert d == Map(Put(partial.entries, seg.name, List(items + [child])));
        PutBeside(partial.entries, seg.name, List(items + [child]), p);
      } else {
        var child := Descend(items[seg.index], segs[1..], last, value, asWritten).value;
        assert d == Map(Put(partial.entries, seg.name, List(items[seg.index := child])));
        PutBeside(partial.entries, seg.name, List(items[seg.index := child]), p);
      }
    }
  }

  /** The walk and the final assignment change no path beside the path they go
      through: siblings at every level keep their values. */
  lemma {:induction false} DescendKeepsBeside(partial: Doc, segs: seq<Segment>, last: Segment, value: Doc, asWritten: bool, p: seq<Segment>)
    requires Descend(partial, segs, last, value, asWritten).Ok? && Beside(p, segs + [last])
    ensures At(Descend(partial, segs, last, value, asWritten).value, p) == At(partial, p)
    decreases |segs|
  {
    if |segs| == 0 {
      assert segs + [last] == [last];
      SetLastKeepsBeside(partial, last, value, asWritten, p);
    } else {
      var seg := segs[0];
      assert (segs + [last])[0] == seg && (segs + [last])[1..] == segs[1..] + [last];
      if p[0] == seg && Beside(p[1..], segs[1..] + [last]) {
        var found := Get(partial.entries, seg.name);
        var inner :=
          if found.None? || (seg.Indexed? && |found.value.items| == seg.index) then Map([])
          else if seg.Key? then found.value
          else found.value.items[seg.index];
        var child := Descend(inner, segs[1..], last, value, asWritten).value;
        var stored :=
          if found.None? then (if seg.Key? then child else List([child]))
          else if seg.Key? then child
          else if |found.value.items| == seg.index then List(found.value.items + [child])
          else List(found.value.items[seg.index := child]);
        assert Descend(partial, segs, last, value, asWritten).value == Map(Put(partial.entries, seg.name, stored));
        DescendKeepsBeside(inner, segs[1..], last, value, asWritten, p[1..]);
        PutUnder(partial.entries, stored, p);
        AtBelow(partial.entries, p);
      } else {
        DescendKeepsOther(partial, segs, last, value, asWritten, p);
      }
    }
  }

  /** The walk and the final assignment of an edit change no path beside the path
      they go through. */
  lemma EditPartsKeepsBeside(doc: Doc, parts: seq<string>, value: Doc, asWritten: bool, p: seq<Segment>)
    requires |parts| > 0 && EditParts(doc, parts, value, asWritten).Ok? && Beside(p, EditPath(parts))
    ensures At(EditParts(doc, parts, value, asWritten).value, p) == At(doc, p)
  {
    var last := ParseSegment(parts[|parts| - 1]);
    var walk := if |parts| == 1 then [] else Segments(Join(".", parts[..|parts| - 1]));
    assert EditParts(doc, parts, value, asWritten) == Descend(doc, walk, last, value, asWritten);
    DescendKeepsBeside(doc, walk, last, value, asWritten, p);
  }

  /** `_edit` (either reading) changes no path beside `path`. */
  lemma EditKeepsBeside(doc: Doc, path: string, value: Doc, asWritten: bool, p: seq<Segment>)
    requires EditWith(doc, path, value, asWritten).Ok? && Beside(p, Segments(path))
    ensures At(EditWith(doc, path, value, asWritten).value, p) == At(doc, p)
  {
    EditSegments(path);
    EditPartsKeepsBeside(doc, Split(path, '.'), value, asWritten, p);
  }


  /** The name an edit first descends into. */
  function FirstName(segs: seq<Segment>, last: Segment): string
  {
    if |segs| == 0 then last.name else segs[0].name
  }

  /** An edit changes only the top-level entry it goes through; every other key
      keeps its value. */
  lemma KeepsOtherKeys(partial: Doc, segs: seq<Segment>, last: Segment, value: Doc, asWritten: bool, k: string)
    requires Descend(partial, segs, last, value, asWritten).Ok? && k != FirstName(segs, last)
    ensures Get(Descend(partial, segs, last, value, asWritten).value.entries, k) == Get(partial.entries, k)
  {
    var d := Descend(partial, segs, last, value, asWritten).value;
    if |segs| == 0 {
      match last
      case Key(name) =>
        GetPutOther(partial.entries, name, value, k);
      case Indexed(name, i) =>
        var found := Lookup(partial, name);
        var stored :=
          if found.value.None? then List([value])
          else if i < |found.value.value.items| then List(found.value.value.items[i := value])
          else List(found.value.value.items + [value]);
        assert d == Map(Put(partial.entries, name, stored));
        GetPutOther(partial.entries, name, stored, k);
    } else {
      var seg := segs[0];
      var found := Lookup(partial, seg.name);
      var inner :=
        if found.value.None? || (seg.Indexed? && |found.value.value.items| == seg.index) then Map([])
        else if seg.Key? then found.value.value
        else found.value.value.items[seg.index];
      var child := Descend(inner, segs[1..], last, value, asWritten).value;
      var stored :=
        if found.value.None? then (if seg.Key? then child else List([child]))
        else if seg.Key? then child
        else if |found.value.value.items| == seg.index then List(found.value.value.items + [child])
        else List(found.value.value.items[seg.index := child]);
      assert d == Map(Put(partial.entries, seg.name, stored));
      GetPutOther(partial.entries, seg.name, stored, k);
    }
  }

  /** An edit of a many-part path changes only the top-level entry its walk
      starts with. */
  lemma EditPartsKeepsOtherKeys(doc: Doc, parts: seq<string>, value: Doc, asWritten: bool, k: string)
    requires |parts| > 1 && EditParts(doc, parts, value, asWritten).Ok?
    requires var walk := Segments(Join(".", parts[..|parts| - 1]));
      |walk| > 0 && k != walk[0].name
    ensures Get(EditParts(doc, parts, value, asWritten).value.entries, k) == Get(doc.entries, k)
  {
    var walk := Segments(Join(".", parts[..|parts| - 1]));
    var last := ParseSegment(parts[|parts| - 1]);
    assert EditParts(doc, parts, value, asWritten) == Descend(doc, walk, last, value, asWritten);
    KeepsOtherKeys(doc, walk, last, value, asWritten, k);
  }

  /** A plain one-part path sets that top-level key on the document, and only that
      key; on anything but a mapping it raises TypeError. */
  lemma EditTopLevelKey(doc: Doc, key: string, value: Doc, asWritten: bool)
    requires '.' !in key && '[' !in key
    ensures doc.Map? ==> EditWith(doc, key, value, asWritten) == Ok(Map(Put(doc.entries, key, value)))
    ensures !doc.Map? ==> EditWith(doc, key, value, asWritten) == Err(TypeError)
  {
    SplitNoSeparator(key, '.');
  }

  /** An index past the end of an existing intermediate list, or a non-zero index
      on a missing one, raises IndexError. */
  lemma IntermediateGap(partial: Doc, name: string, i: nat, rest: seq<Segment>, last: Segment, value: Doc, asWritten: bool)
    requires partial.Map?
    requires match Get(partial.entries, name)
      case None => i > 0
      case Some(v) => v.List? && |v.items| < i
    ensures Descend(partial, [Indexed(name, i)] + rest, last, value, asWritten) == Err(IndexError)
  {
    assert ([Indexed(name, i)] + rest)[0] == Indexed(name, i);
  }

  /** The two readings agree whenever the final segment is a plain key: the string
      index only matters at the end. */
  lemma {:induction false} AsWrittenAgrees(partial: Doc, segs: seq<Segment>, last: Segment, value: Doc)
    requires last.Key?
    ensures Descend(partial, segs, last, value, true) == Descend(partial, segs, last, value, false)
    decreases |segs|
  {
    if |segs| > 0 {
      var found := Lookup(partial, segs[0].name);
      AsWrittenAgrees(Map([]), segs[1..], last, value);
      if found.Ok? && found.value.Some? {
        var v := found.value.value;
        AsWrittenAgrees(v, segs[1..], last, value);
        if segs[0].Indexed? && v.List? && segs[0].index < |v.items| {
          AsWrittenAgrees(v.items[segs[0].index], segs[1..], last, value);
        }
      }
    }
  }

  /** As written, `name[i]` as the final segment fails whenever `name` is already
      there, even on a list that has an item `i`. */
  lemma AsWrittenExistingFails(obj: Doc, name: string, i: nat, value: Doc)
    requires Lookup(obj, name).Ok? && Lookup(obj, name).value.Some?
    ensures SetLast(obj, Indexed(name, i), value, true) == Err(TypeError)
  {
  }

  /** The input that shows it: `name[0]` on a document whose `name` is a list
      with an item 0, e.g. `{"a": [1]}` and `"a[0]"`. As written the edit raises
      TypeError; read as an integer it replaces the item. */
  lemma ReplaceFirstItem(name: string, items: seq<Doc>, value: Doc)
    requires '.' !in name && '[' !in name && |items| > 0
    ensures EditAsWritten(Map([(name, List(items))]), name + "[0]", value) == Err(TypeError)
    ensures Edit(Map([(name, List(items))]), name + "[0]", value) == Ok(Map([(name, List(items[0 := value]))]))
  {
    var doc := Map([(name, List(items))]);
    EditOfFirstItem(doc, name, value);
    assert Lookup(doc, name) == Ok(Some(List(items)));
    assert Put(doc.entries, name, List(items[0 := value])) == [(name, List(items[0 := value]))];
  }

  lemma EditOfFirstItem(doc: Doc, name: string, value: Doc)
    requires '.' !in name && '[' !in name
    ensures EditAsWritten(doc, name + "[0]", value) == SetLast(doc, Indexed(name, 0), value, true)
    ensures Edit(doc, name + "[0]", value) == SetLast(doc, Indexed(name, 0), value, false)
  {
    FirstItemPath(name);
  }

  /** `name[0]` is one part, indexed at 0. */
  lemma FirstItemPath(name: string)
    requires '.' !in name && '[' !in name
    ensures Split(name + "[0]", '.') == [name + "[0]"]
    ensures ParseSegment(name + "[0]") == Indexed(name, 0)
  {
    var path := name + "[0]";
    assert NatToString(0) == "0";
    ParseIndexed(name, 0);
    assert name + "[" + NatToString(0) + "]" == path;
    assert '.' !in path;
    SplitNoSeparator(path, '.');
  }

  /** Python's `key in value` for a mapping with string keys: a list or mapping
      key is unhashable; a non-string scalar is never among string keys. */
  function KeyIn(key: Doc, mapping: OMap<string, Doc>): Result<bool>
  {
    match key
    case List(_) => Err(TypeError)
    case Map(_) => Err(TypeError)
    case Str(k) => Ok(Get(mapping, k).Some?)
    case _ => Ok(false)
  }

  /** `_mapping_edit`: looks up `key_path` and, when it resolves to a key of
      `mapping`, edits `path` to that key's value. */
  function MappingEdit(doc: Doc, path: string, mapping: OMap<string, Doc>, keyPath: string): (r: Result<Doc>)
    ensures r.Ok? ==> r.value == doc || exists k :: Get(mapping, k).Some? && r == EditAsWritten(doc, path, Get(mapping, k).value)
  {
    match Search(doc, keyPath)
    case Err(e) => Err(e)
    case Ok((success, key, _)) =>
      if !success then Ok(doc)
      else
        match KeyIn(key, mapping)
        case Err(e) => Err(e)
        case Ok(present) =>
          if present then
            var name := key.s;
            var r := EditAsWritten(doc, path, Get(mapping, name).value);
            assert Get(mapping, name).Some? && r == EditAsWritten(doc, path, Get(mapping, name).value);
            assert exists k :: Get(mapping, k).Some? && r == EditAsWritten(doc, path, Get(mapping, k).value);
            r
          else Ok(doc)
  }

  /** `_mapping_edit` edits exactly when `key_path` holds a string naming an entry
      of the mapping, and then with that entry's value. */
  lemma MappingEditSelects(doc: Doc, path: string, mapping: OMap<string, Doc>, keyPath: string)
    ensures forall k :: At(doc, Segments(keyPath)) == Some(Str(k)) && Get(mapping, k).Some? ==>
      MappingEdit(doc, path, mapping, keyPath) == EditAsWritten(doc, path, Get(mapping, k).value)
    ensures (At(doc, Segments(keyPath)).None? && Search(doc, keyPath).Ok?) ==> MappingEdit(doc, path, mapping, keyPath) == Ok(doc)
    ensures ((forall k :: At(doc, Segments(keyPath)) == Some(Str(k)) ==> Get(mapping, k).None?) &&
      MappingEdit(doc, path, mapping, keyPath).Ok?) ==> MappingEdit(doc, path, mapping, keyPath) == Ok(doc)
  {
    SearchFound(doc, Segments(keyPath), [], keyPath);
  }

  /** The value of a number for Python's `==`, where `True == 1 == 1.0`. */
  function NumberOf(d: Doc): Option<real>
  {
    match d
    case Bool(b) => Some(if b then 1.0 else 0.0)
    case Int(i) => Some(i as real)
    case Float(f) => Some(f)
    case _ => None
  }

  /** Python's `==` on loaded values: numbers by value across `bool`, `int` and
      `float`; lists item by item; mappings by their keys and the values under
      them, whatever the order of their entries. */
  predicate PyEq(a: Doc, b: Doc)
    decreases a
  {
    if NumberOf(a).Some? || NumberOf(b).Some? then NumberOf(a) == NumberOf(b)
    else
      match a
      case Null => b.Null?
      case Str(s) => b.Str? && b.s == s
      case List(xs) =>
        b.List? && |xs| == |b.items| && forall i :: 0 <= i < |xs| ==> PyEq(xs[i], b.items[i])
      case Map(es) =>
        b.Map? && (forall j :: 0 <= j < |b.entries| ==> Get(es, b.entries[j].0).Some?) &&
        forall i :: 0 <= i < |es| && Get(es, es[i].0) == Some(es[i].1) ==>
          Get(b.entries, es[i].0).Some? && PyEq(es[i].1, Get(b.entries, es[i].0).value)
      case _ => false
  }

  /** Every value equals itself. */
  lemma {:induction false} PyEqRefl(a: Doc)
    ensures PyEq(a, a)
    decreases a
  {
    match a
    case List(xs) =>
      forall i | 0 <= i < |xs| ensures PyEq(xs[i], xs[i]) {
        PyEqRefl(xs[i]);
      }
    case Map(es) =>
      forall i | 0 <= i < |es| && Get(es, es[i].0) == Some(es[i].1)
        ensures PyEq(es[i].1, Get(es, es[i].0).value)
      {
        PyEqRefl(es[i].1);
      }
      forall j | 0 <= j < |es| ensures Get(es, es[j].0).Some? {
        GetOfKey(es, j);
      }
    case _ =>
  }

  /** A key at position `j` is found. */
  lemma {:induction false} GetOfKey<V>(es: OMap<string, V>, j: nat)
    requires j < |es|
    ensures Get(es, es[j].0).Some?
  {
    if j > 0 && es[0].0 != es[j].0 {
      GetOfKey(es[1..], j - 1);
    }
  }

  /** `1 == 1.0 == True`: a number equals the same number of another type, and
      no string equals a number. */
  lemma NumbersAcrossTypes(n: int, s: string)
    ensures PyEq(Int(n), Float(n as real)) && PyEq(Float(n as real), Int(n))
    ensures PyEq(Bool(true), Int(1)) && PyEq(Bool(false), Float(0.0))
    ensures !PyEq(Str(s), Int(n)) && !PyEq(Int(n), Str(s))
  {
  }

  /** Mappings with the same entries in another order are equal. */
  lemma SwappedEntries(k1: string, k2: string, v1: Doc, v2: Doc)
    requires k1 != k2
    ensures PyEq(Map([(k1, v1), (k2, v2)]), Map([(k2, v2), (k1, v1)]))
  {
    PyEqRefl(v1);
    PyEqRefl(v2);
    var es := [(k1, v1), (k2, v2)];
    var fs := [(k2, v2), (k1, v1)];
    assert fs[1..] == [(k1, v1)] && es[1..] == [(k2, v2)];
    assert Get(fs, k1) == Get(fs[1..], k1) == Some(v1);
    assert Get(es, k2) == Get(es[1..], k2) == Some(v2);
  }

  /** `_conditional_edit`: edits when `decide_path` resolves to a value equal to
      `condition` under Python's `==`, or does not resolve and `condition` is
      None (here `Null`). */
  function ConditionalEdit(doc: Doc, path: string, value: Doc, decidePath: string, condition: Doc): (r: Result<Doc>)
    ensures r.Ok? ==> r.value == doc || r == EditAsWritten(doc, path, value)
    ensures r.Err? ==> Search(doc, decidePath).Err? || EditAsWritten(doc, path, value).Err?
  {
    match Search(doc, decidePath)
    case Err(e) => Err(e)
    case Ok((success, result, _)) =>
      if (success && PyEq(result, condition)) || (!success && condition == Null) then EditAsWritten(doc, path, value)
      else Ok(doc)
  }

  /** `_conditional_edit` edits if and only if the decision path holds a value
      equal to the condition, or is absent and the condition is None. */
  lemma ConditionalEditDecides(doc: Doc, path: string, value: Doc, decidePath: string, condition: Doc)
    requires Search(doc, decidePath).Ok?
    ensures At(doc, Segments(decidePath)).Some? && PyEq(At(doc, Segments(decidePath)).value, condition) ==>
      ConditionalEdit(doc, path, value, decidePath, condition) == EditAsWritten(doc, path, value)
    ensures At(doc, Segments(decidePath)).None? && condition == Null ==>
      ConditionalEdit(doc, path, value, decidePath, condition) == EditAsWritten(doc, path, value)
    ensures At(doc, Segments(decidePath)).Some? && !PyEq(At(doc, Segments(decidePath)).value, condition) ==>
      ConditionalEdit(doc, path, value, decidePath, condition) == Ok(doc)
    ensures At(doc, Segments(decidePath)).None? && condition != Null ==>
      ConditionalEdit(doc, path, value, decidePath, condition) == Ok(doc)
  {
    SearchFound(doc, Segments(decidePath), [], decidePath);
  }

  /** An integer found at the decision path meets the same number given as a
      float, as `1 == 1.0` does in Python. */
  lemma ConditionalEditAcrossTypes(doc: Doc, path: string, value: Doc, decidePath: string, n: int)
    requires Search(doc, decidePath).Ok? && At(doc, Segments(decidePath)) == Some(Int(n))
    ensures ConditionalEdit(doc, path, value, decidePath, Float(n as real)) == EditAsWritten(doc, path, value)
  {
    ConditionalEditDecides(doc, path, value, decidePath, Float(n as real));
  }

}
