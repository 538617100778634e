/**
 * `XMLResponseSerializer`: a JSON-like value becomes an element tree. Lists
 * give repeated `member` children, dictionary keys give child tags, scalars
 * give element text, and the keys `TemplateBody` and `Metadata` hold their
 * value as embedded JSON text.
 *
 * Encoding can fail: lxml refuses a tag that is not an XML name and text
 * that is not XML compatible, and Python 2's `str` raises on non-ASCII
 * unicode. The first failure in document order is the exception `to_xml`
 * raises.
 *
 * `Populate` says what `object_to_element` does to an element, as a value;
 * `Document` is the mutable tree that `etree.SubElement` grows in place, and
 * `Document.ObjectToElement` is proved to have exactly that effect.
 */
module Xml {
  import opened Base
  import opened Values

  /** Keys whose value is written as JSON text inside the XML element. */
  const JSON_ONLY_KEYS: seq<string> := ["TemplateBody", "Metadata"]

  /** A fresh element: a tag, no text, no children. */
  function Leaf(tag: string): Element {
    Element(tag, None, [])
  }

  /** lxml's ValueError for a tag that is not an XML name. */
  function InvalidTag(tag: string): Exc {
    PyError(ValueError, Plain("Invalid tag name " + tag))
  }

  /** lxml's ValueError for text it cannot store. */
  const INVALID_TEXT: Exc :=
    PyError(ValueError, Plain("All strings must be XML compatible: Unicode or ASCII, no NULL bytes or control characters"))

  /** Python 2's `str(obj)`. */
  function PyStr(obj: Value, lib: Foreign): Result<string, Exc> {
    match lib.str(obj)
    case Some(s) => Success(s)
    case None => Failure(PyError(UnicodeEncodeError, Plain("'ascii' codec can't encode character")))
  }

  /** The text of a JSON-only key's element: `json.dumps(value)`, or
      `str(value)` when dumps raises TypeError; any other exception of dumps
      (a UnicodeDecodeError, which is a ValueError) is not caught. */
  function JsonText(value: Value, lib: Foreign): Result<string, Exc> {
    match lib.dumps(value)
    case Success(s) => Success(s)
    case Failure(e) => if e.PyError? && e.kind == TypeError then PyStr(value, lib) else Failure(e)
  }

  /** `element.text = s`. */
  function WithText(e: Element, s: string, lib: Foreign): (r: Result<Element, Exc>)
    ensures r.Success? <==> lib.validText(s)
    ensures r.Success? ==> r.value == e.(text := Some(s))
    ensures r.Failure? ==> r.error == INVALID_TEXT
  {
    if lib.validText(s) then Success(e.(text := Some(s))) else Failure(INVALID_TEXT)
  }

  /** Appending the children `cs` in order, stopping at the first that failed. */
  function AppendAll(e: Element, cs: seq<Result<Element, Exc>>): Result<Element, Exc>
    decreases |cs|
  {
    if cs == [] then Success(e)
    else
      match AppendAll(e, cs[..|cs| - 1])
      case Failure(x) => Failure(x)
      case Success(acc) =>
        match cs[|cs| - 1]
        case Failure(x) => Failure(x)
        case Success(c) => Success(acc.(children := acc.children + [c]))
  }

  /** What `object_to_element(obj, element)` makes of `element`, or the
      exception it raises. */
  function Populate(obj: Value, e: Element, lib: Foreign): Result<Element, Exc>
    decreases obj, 0
  {
    match obj
    case List(items) =>
      AppendAll(e, seq(|items|, k requires 0 <= k < |items| => EncodedChild("member", items[k], lib)))
    case Dict(entries) =>
      AppendAll(e, seq(|entries|, k requires 0 <= k < |entries| => EntryChild(entries[k].0, entries[k].1, lib)))
    case _ =>
      match PyStr(obj, lib)
      case Failure(x) => Failure(x)
      case Success(s) => WithText(e, s, lib)
  }

  /** `etree.SubElement(element, tag)` followed by `object_to_element(value, subelement)`. */
  function EncodedChild(tag: string, value: Value, lib: Foreign): Result<Element, Exc>
    decreases value, 1
  {
    if !lib.validTag(tag) then Failure(InvalidTag(tag)) else Populate(value, Leaf(tag), lib)
  }

  /** The element of a JSON-only key: embedded JSON text when the value is
      truthy, nothing otherwise. */
  function JsonOnlyChild(key: string, value: Value, lib: Foreign): Result<Element, Exc> {
    if !lib.validTag(key) then Failure(InvalidTag(key))
    else if !Truthy(value) then Success(Leaf(key))
    else
      match JsonText(value, lib)
      case Failure(x) => Failure(x)
      case Success(s) => WithText(Leaf(key), s, lib)
  }

  /** When `json.dumps` raises on a truthy value under a JSON-only key, only a
      TypeError falls back to `str`; any other exception is the element's. */
  lemma JsonOnlyDumpsFailure(key: string, value: Value, lib: Foreign)
    requires lib.validTag(key) && Truthy(value) && lib.dumps(value).Failure?
    ensures lib.dumps(value).error.PyError? && lib.dumps(value).error.kind == TypeError ==>
      JsonOnlyChild(key, value, lib) ==
        (match PyStr(value, lib) case Success(s) => WithText(Leaf(key), s, lib) case Failure(x) => Failure(x))
    ensures !(lib.dumps(value).error.PyError? && lib.dumps(value).error.kind == TypeError) ==>
      JsonOnlyChild(key, value, lib) == Failure(lib.dumps(value).error)
  {
  }

  /** The element of one dictionary entry. */
  function EntryChild(key: string, value: Value, lib: Foreign): Result<Element, Exc>
    decreases value, 2
  {
    if key in JSON_ONLY_KEYS then JsonOnlyChild(key, value, lib) else EncodedChild(key, value, lib)
  }

  /** A value the encoder accepts, stated independently of the encoder: every
      tag it creates is an XML name, every text it stores is XML compatible,
      and every `str` it takes succeeds. */
  predicate Encodable(obj: Value, lib: Foreign)
    decreases obj
  {
    match obj
    case List(items) =>
      forall k :: 0 <= k < |items| ==> lib.validTag("member") && Encodable(items[k], lib)
    case Dict(entries) =>
      forall k :: 0 <= k < |entries| ==>
        && lib.validTag(entries[k].0)
        && if entries[k].0 in JSON_ONLY_KEYS then
             !Truthy(entries[k].1) ||
             (JsonText(entries[k].1, lib).Success? && lib.validText(JsonText(entries[k].1, lib).value))
           else Encodable(entries[k].1, lib)
    case _ => lib.str(obj).Some? && lib.validText(lib.str(obj).value)
  }

  /** Appending children succeeds iff every child does, and then adds them in
      order after the existing ones; otherwise the error is the first failed
      child's. */
  lemma {:induction false} AppendAllSpec(e: Element, cs: seq<Result<Element, Exc>>)
    ensures var r := AppendAll(e, cs);
      && (r.Success? <==> forall k :: 0 <= k < |cs| ==> cs[k].Success?)
      && (r.Success? ==>
            && r.value.tag == e.tag && r.value.text == e.text
            && |r.value.children| == |e.children| + |cs|
            && r.value.children[..|e.children|] == e.children
            && forall k :: 0 <= k < |cs| ==> r.value.children[|e.children| + k] == cs[k].value)
      && (r.Failure? ==>
            exists j :: 0 <= j < |cs| && cs[j].Failure? && r.error == cs[j].error &&
              forall k :: 0 <= k < j ==> cs[k].Success?)
    decreases |cs|
  {
    if cs != [] {
      var n := |cs| - 1;
      var init := cs[..n];
      AppendAllSpec(e, init);
      assert forall k :: 0 <= k < n ==> init[k] == cs[k];
      var r := AppendAll(e, cs);
      if AppendAll(e, init).Success? && cs[n].Success? {
        var acc := AppendAll(e, init).value;
        assert r.value.children == acc.children + [cs[n].value];
      }
    }
  }

  /** When every child before `i` was appended and child `i` failed, the
      whole append fails with child `i`'s error. */
  lemma AppendAllStops(e: Element, cs: seq<Result<Element, Exc>>, i: nat)
    requires i < |cs| && AppendAll(e, cs[..i]).Success? && cs[i].Failure?
    ensures AppendAll(e, cs) == Failure(cs[i].error)
  {
    AppendAllSpec(e, cs[..i]);
    AppendAllSpec(e, cs);
    assert forall k :: 0 <= k < i ==> cs[..i][k] == cs[k];
  }

  /** A list appends one `member` child per item, in order, each encoding its
      item, and leaves the tag, the text and the existing children alone;
      it fails with the error of the first item that cannot be encoded. */
  lemma PopulateList(items: seq<Value>, e: Element, lib: Foreign)
    ensures var r := Populate(List(items), e, lib);
      && (r.Success? <==> forall k :: 0 <= k < |items| ==> EncodedChild("member", items[k], lib).Success?)
      && (r.Success? ==>
            && r.value.tag == e.tag && r.value.text == e.text
            && |r.value.children| == |e.children| + |items|
            && r.value.children[..|e.children|] == e.children
            && forall k :: 0 <= k < |items| ==>
                 r.value.children[|e.children| + k].tag == "member" &&
                 Populate(items[k], Leaf("member"), lib) == Success(r.value.children[|e.children| + k]))
      && (r.Failure? ==>
            exists j :: 0 <= j < |items| && EncodedChild("member", items[j], lib).Failure? &&
              r.error == EncodedChild("member", items[j], lib).error &&
              forall k :: 0 <= k < j ==> EncodedChild("member", items[k], lib).Success?)
  {
    var cs := seq(|items|, k requires 0 <= k < |items| => EncodedChild("member", items[k], lib));
    assert Populate(List(items), e, lib) == AppendAll(e, cs);
    assert forall k :: 0 <= k < |items| ==> cs[k] == EncodedChild("member", items[k], lib);
    AppendAllSpec(e, cs);
    if Populate(List(items), e, lib).Success? {
      MemberChildren(items, cs, AppendAll(e, cs).value.children[|e.children|..], lib);
    }
  }

  /** Each successfully encoded `member` child is its item's encoding. */
  lemma MemberChildren(items: seq<Value>, cs: seq<Result<Element, Exc>>, kids: seq<Element>, lib: Foreign)
    requires |cs| == |items| == |kids|
    requires forall k :: 0 <= k < |items| ==> cs[k] == EncodedChild("member", items[k], lib)
    requires forall k :: 0 <= k < |items| ==> cs[k] == Success(kids[k])
    ensures forall k :: 0 <= k < |items| ==>
      kids[k].tag == "member" && Populate(items[k], Leaf("member"), lib) == Success(kids[k])
  {
    forall k | 0 <= k < |items|
      ensures kids[k].tag == "member" && Populate(items[k], Leaf("member"), lib) == Success(kids[k])
    {
      PopulateExtends(items[k], Leaf("member"), lib);
    }
  }

  /** A dictionary appends one child per key, tagged with the key, and fails
      with the error of the first entry that cannot be encoded. A JSON-only
      key's child has no children and holds the embedded JSON text when the
      value is truthy and no text otherwise; any other key's child encodes
      its value. */
  lemma PopulateDict(entries: seq<(string, Value)>, e: Element, lib: Foreign)
    ensures var r := Populate(Dict(entries), e, lib);
      && (r.Success? <==> forall k :: 0 <= k < |entries| ==> EntryChild(entries[k].0, entries[k].1, lib).Success?)
      && (r.Success? ==>
            && r.value.tag == e.tag && r.value.text == e.text
            && |r.value.children| == |e.children| + |entries|
            && r.value.children[..|e.children|] == e.children
            && forall k :: 0 <= k < |entries| ==>
                 var child := r.value.children[|e.children| + k];
                 && child.tag == entries[k].0
                 && (entries[k].0 in JSON_ONLY_KEYS ==>
                       child.children == [] &&
                       (Truthy(entries[k].1) ==> child.text.Some? && JsonText(entries[k].1, lib) == Success(child.text.value)) &&
                       (!Truthy(entries[k].1) ==> child.text.None?))
                 && (entries[k].0 !in JSON_ONLY_KEYS ==> Populate(entries[k].1, Leaf(entries[k].0), lib) == Success(child)))
      && (r.Failure? ==>
            exists j :: 0 <= j < |entries| && EntryChild(entries[j].0, entries[j].1, lib).Failure? &&
              r.error == EntryChild(entries[j].0, entries[j].1, lib).error &&
              forall k :: 0 <= k < j ==> EntryChild(entries[k].0, entries[k].1, lib).Success?)
  {
    var cs := seq(|entries|, k requires 0 <= k < |entries| => EntryChild(entries[k].0, entries[k].1, lib));
    assert Populate(Dict(entries), e, lib) == AppendAll(e, cs);
    assert forall k :: 0 <= k < |entries| ==> cs[k] == EntryChild(entries[k].0, entries[k].1, lib);
    AppendAllSpec(e, cs);
    forall k | 0 <= k < |entries| && cs[k].Success? && entries[k].0 !in JSON_ONLY_KEYS
      ensures cs[k].value.tag == entries[k].0 && Populate(entries[k].1, Leaf(entries[k].0), lib) == cs[k]
    {
      assert cs[k] == EncodedChild(entries[k].0, entries[k].1, lib);
      PopulateExtends(entries[k].1, Leaf(entries[k].0), lib);
    }
  }

  /** A scalar sets the element's text to its `str`; `str` failing and lxml
      refusing the text are the two ways it can raise. */
  lemma PopulateScalar(obj: Value, e: Element, lib: Foreign)
    requires !obj.List? && !obj.Dict?
    ensures var r := Populate(obj, e, lib);
      && (r.Success? <==> lib.str(obj).Some? && lib.validText(lib.str(obj).value))
      && (r.Success? ==> r.value == e.(text := lib.str(obj)))
      && (lib.str(obj).None? ==> r.Failure? && r.error.PyError? && r.error.kind == UnicodeEncodeError)
      && (lib.str(obj).Some? && !lib.validText(lib.str(obj).value) ==> r == Failure(INVALID_TEXT))
  {
  }

  /** A successful encoding never changes the tag and only appends children. */
  lemma PopulateExtends(obj: Value, e: Element, lib: Foreign)
    ensures var r := Populate(obj, e, lib);
      r.Success? ==>
        && r.value.tag == e.tag
        && |e.children| <= |r.value.children|
        && r.value.children[..|e.children|] == e.children
  {
    match obj {
      case List(items) =>
        AppendAllSpec(e, seq(|items|, k requires 0 <= k < |items| => EncodedChild("member", items[k], lib)));
      case Dict(entries) =>
        AppendAllSpec(e, seq(|entries|, k requires 0 <= k < |entries| => EntryChild(entries[k].0, entries[k].1, lib)));
      case _ =>
    }
  }

  /** The encoder succeeds exactly on the values `Encodable` describes. */
  lemma {:induction false} PopulateSucceeds(obj: Value, e: Element, lib: Foreign)
    ensures Populate(obj, e, lib).Success? <==> Encodable(obj, lib)
    decreases obj
  {
    match obj {
      case List(items) =>
        var cs := seq(|items|, k requires 0 <= k < |items| => EncodedChild("member", items[k], lib));
        AppendAllSpec(e, cs);
        forall k | 0 <= k < |items|
          ensures cs[k].Success? <==> lib.validTag("member") && Encodable(items[k], lib)
        {
          PopulateSucceeds(items[k], Leaf("member"), lib);
        }
      case Dict(entries) =>
        var cs := seq(|entries|, k requires 0 <= k < |entries| => EntryChild(entries[k].0, entries[k].1, lib));
        AppendAllSpec(e, cs);
        forall k | 0 <= k < |entries|
          ensures cs[k].Success? <==>
            && lib.validTag(entries[k].0)
            && if entries[k].0 in JSON_ONLY_KEYS then
                 !Truthy(entries[k].1) ||
                 (JsonText(entries[k].1, lib).Success? && lib.validText(JsonText(entries[k].1, lib).value))
               else Encodable(entries[k].1, lib)
        {
          if entries[k].0 in JSON_ONLY_KEYS {
            assert cs[k] == JsonOnlyChild(entries[k].0, entries[k].1, lib);
          } else {
            assert cs[k] == EncodedChild(entries[k].0, entries[k].1, lib);
            PopulateSucceeds(entries[k].1, Leaf(entries[k].0), lib);
          }
        }
      case _ =>
    }
  }

  /** `to_xml`'s tree: the first (and, by assumption, only) key is the root
      tag and its value is encoded below it. An empty dictionary fails at
      `keys()[0]`, anything that is not a dictionary has no `keys`, and
      `etree.Element` refuses a root tag that is not an XML name. */
  function ToXmlTree(data: Value, lib: Foreign): (r: Result<Element, Exc>)
    ensures r.Success? <==>
      data.Dict? && data.entries != [] && lib.validTag(data.entries[0].0) && Encodable(data.entries[0].1, lib)
    ensures r.Success? ==> r.value.tag == data.entries[0].0
    ensures !data.Dict? ==> r == Failure(PyError(AttributeError, Plain("keys")))
    ensures data == Dict([]) ==> r == Failure(PyError(IndexError, Plain("list index out of range")))
    ensures data.Dict? && data.entries != [] && !lib.validTag(data.entries[0].0) ==>
      r == Failure(InvalidTag(data.entries[0].0))
  {
    match data
    case Dict(entries) =>
      if entries == [] then Failure(PyError(IndexError, Plain("list index out of range")))
      else if !lib.validTag(entries[0].0) then Failure(InvalidTag(entries[0].0))
      else
        PopulateSucceeds(entries[0].1, Leaf(entries[0].0), lib);
        PopulateExtends(entries[0].1, Leaf(entries[0].0), lib);
        Populate(entries[0].1, Leaf(entries[0].0), lib)
    case _ => Failure(PyError(AttributeError, Plain("keys")))
  }

  /** The exception a result carries, if any. */
  function ErrorOf(r: Result<Element, Exc>): Option<Exc> {
    if r.Failure? then Some(r.error) else None
  }

  // ---------------------------------------------------------------------
  // The element tree as mutable state

  /** One element of a document: children are referred to by index. */
  datatype Node = Node(tag: string, text: Option<string>, kids: seq<nat>)

  /** Every child index points to a later node of the document. */
  predicate WellFormed(nodes: seq<Node>) {
    forall i, j :: 0 <= i < |nodes| && 0 <= j < |nodes[i].kids| ==> i < nodes[i].kids[j] < |nodes|
  }

  /** The element rooted at node `i`. */
  function TreeOf(nodes: seq<Node>, i: nat): Element
    requires WellFormed(nodes) && i < |nodes|
    decreases |nodes| - i
  {
    Element(nodes[i].tag, nodes[i].text,
      seq(|nodes[i].kids|, k requires 0 <= k < |nodes[i].kids| => TreeOf(nodes, nodes[i].kids[k])))
  }

  /** The element rooted at `j` depends only on nodes `j` and later. */
  lemma {:induction false} TreeFrame(a: seq<Node>, b: seq<Node>, j: nat)
    requires WellFormed(a) && WellFormed(b) && |a| <= |b| && j < |a|
    requires forall m :: j <= m < |a| ==> b[m] == a[m]
    ensures TreeOf(a, j) == TreeOf(b, j)
    decreases |a| - j
  {
    forall k | 0 <= k < |a[j].kids|
      ensures TreeOf(a, a[j].kids[k]) == TreeOf(b, b[j].kids[k])
    {
      TreeFrame(a, b, a[j].kids[k]);
    }
  }

  class Document {
    var nodes: seq<Node>

    ghost predicate Valid()
      reads this
    {
      WellFormed(nodes) && |nodes| > 0
    }

    /** The element rooted at node `i`. */
    function Tree(i: nat): Element
      reads this
      requires Valid() && i < |nodes|
    {
      TreeOf(nodes, i)
    }

    /** `etree.Element(tag)` for a tag already known to be an XML name: a
        document holding one empty root element (node 0). */
    constructor (tag: string)
      ensures Valid() && |nodes| == 1 && Tree(0) == Leaf(tag)
    {
      nodes := [Node(tag, None, [])];
    }

    /** `etree.SubElement(parent, tag)`: a new empty element appended to the
        children of `parent`, or a ValueError and no change when the tag is
        not an XML name. */
    method SubElement(parent: nat, tag: string, lib: Foreign) returns (r: Result<nat, Exc>)
      requires Valid() && parent < |nodes|
      modifies this
      ensures Valid()
      ensures r.Failure? <==> !lib.validTag(tag)
      ensures r.Failure? ==> r.error == InvalidTag(tag) && nodes == old(nodes)
      ensures r.Success? ==>
        && r.value == old(|nodes|)
        && nodes == old(nodes)[parent := old(nodes)[parent].(kids := old(nodes)[parent].kids + [r.value])]
                    + [Node(tag, None, [])]
        && Tree(r.value) == Leaf(tag)
    {
      if !lib.validTag(tag) {
        return Failure(InvalidTag(tag));
      }
      var child := |nodes|;
      nodes := nodes[parent := nodes[parent].(kids := nodes[parent].kids + [child])] + [Node(tag, None, [])];
      r := Success(child);
    }

    /** `element.text = text`, or a ValueError and no change when lxml
        refuses the text. */
    method SetText(node: nat, text: string, lib: Foreign) returns (err: Option<Exc>)
      requires Valid() && node < |nodes|
      modifies this
      ensures Valid()
      ensures err.Some? <==> !lib.validText(text)
      ensures err.Some? ==> err == Some(INVALID_TEXT) && nodes == old(nodes)
      ensures err.None? ==> nodes == old(nodes)[node := old(nodes)[node].(text := Some(text))]
    {
      if !lib.validText(text) {
        return Some(INVALID_TEXT);
      }
      nodes := nodes[node := nodes[node].(text := Some(text))];
      err := None;
    }

    /** `object_to_element(obj, element)`: grows the tree below `element` in
        place, exactly as `Populate` describes, and touches no other
        existing element; it raises what `Populate` fails with. */
    method ObjectToElement(obj: Value, element: nat, lib: Foreign) returns (err: Option<Exc>)
      requires Valid() && element < |nodes|
      modifies this
      decreases obj, 1
      ensures Valid() && old(|nodes|) <= |nodes|
      ensures forall m :: 0 <= m < old(|nodes|) && m != element ==> nodes[m] == old(nodes[m])
      ensures err == ErrorOf(Populate(obj, old(Tree(element)), lib))
      ensures err.None? ==> Tree(element) == Populate(obj, old(Tree(element)), lib).value
    {
      match obj {
        case List(_) => err := ListToElement(obj, element, lib);
        case Dict(_) => err := DictToElement(obj, element, lib);
        case _ =>
          var s := PyStr(obj, lib);
          if s.Failure? {
            return Some(s.error);
          }
          ghost var before := nodes;
          err := SetText(element, s.value, lib);
          if err.None? {
            forall k | 0 <= k < |nodes[element].kids|
              ensures TreeOf(nodes, nodes[element].kids[k]) == TreeOf(before, before[element].kids[k])
            {
              TreeFrame(before, nodes, nodes[element].kids[k]);
            }
          }
      }
    }

    /** The `for item in obj` loop: one `member` child per item. */
    method ListToElement(obj: Value, element: nat, lib: Foreign) returns (err: Option<Exc>)
      requires obj.List? && Valid() && element < |nodes|
      modifies this
      decreases obj, 0
      ensures Valid() && old(|nodes|) <= |nodes|
      ensures forall m :: 0 <= m < old(|nodes|) && m != element ==> nodes[m] == old(nodes[m])
      ensures err == ErrorOf(Populate(obj, old(Tree(element)), lib))
      ensures err.None? ==> Tree(element) == Populate(obj, old(Tree(element)), lib).value
    {
      var items := obj.items;
      ghost var cs := seq(|items|, k requires 0 <= k < |items| => EncodedChild("member", items[k], lib));
      ghost var before := nodes;
      ghost var start := Tree(element);
      for i := 0 to |items|
        invariant Valid() && |before| <= |nodes| && element < |nodes|
        invariant forall m :: 0 <= m < |before| && m != element ==> nodes[m] == before[m]
        invariant AppendAll(start, cs[..i]) == Success(Tree(element))
      {
        err := AppendEncoded(element, "member", items[i], lib);
        if err.Some? {
          AppendAllStops(start, cs, i);
          return;
        }
        assert cs[..i + 1][..i] == cs[..i];
      }
      assert cs[..|items|] == cs;
      err := None;
    }

    /** The `for key, value in obj.items()` loop: one child per key. */
    method DictToElement(obj: Value, element: nat, lib: Foreign) returns (err: Option<Exc>)
      requires obj.Dict? && Valid() && element < |nodes|
      modifies this
      decreases obj, 0
      ensures Valid() && old(|nodes|) <= |nodes|
      ensures forall m :: 0 <= m < old(|nodes|) && m != element ==> nodes[m] == old(nodes[m])
      ensures err == ErrorOf(Populate(obj, old(Tree(element)), lib))
      ensures err.None? ==> Tree(element) == Populate(obj, old(Tree(element)), lib).value
    {
      var entries := obj.entries;
      ghost var cs := seq(|entries|, k requires 0 <= k < |entries| => EntryChild(entries[k].0, entries[k].1, lib));
      ghost var before := nodes;
      ghost var start := Tree(element);
      for i := 0 to |entries|
        invariant Valid() && |before| <= |nodes| && element < |nodes|
        invariant forall m :: 0 <= m < |before| && m != element ==> nodes[m] == before[m]
        invariant AppendAll(start, cs[..i]) == Success(Tree(element))
      {
        var (key, value) := entries[i];
        if key in JSON_ONLY_KEYS {
          err := AppendJsonOnly(element, key, value, lib);
        } else {
          err := AppendEncoded(element, key, value, lib);
        }
        if err.Some? {
          AppendAllStops(start, cs, i);
          return;
        }
        assert cs[..i + 1][..i] == cs[..i];
      }
      assert cs[..|entries|] == cs;
      err := None;
    }

    /** `subelement = etree.SubElement(element, tag)` followed by
        `object_to_element(value, subelement)`. */
    method AppendEncoded(element: nat, tag: string, value: Value, lib: Foreign) returns (err: Option<Exc>)
      requires Valid() && element < |nodes|
      modifies this
      decreases value, 2
      ensures Valid() && old(|nodes|) <= |nodes|
      ensures forall m :: 0 <= m < old(|nodes|) && m != element ==> nodes[m] == old(nodes[m])
      ensures err == ErrorOf(EncodedChild(tag, value, lib))
      ensures err.None? ==> Tree(element) == old(Tree(element)).(children := old(Tree(element)).children +
        [EncodedChild(tag, value, lib).value])
    {
      ghost var s := nodes;
      var sub := SubElement(element, tag, lib);
      if sub.Failure? {
        return Some(sub.error);
      }
      err := ObjectToElement(value, sub.value, lib);
      if err.None? {
        ChildAppended(s, nodes, element, sub.value);
      }
    }

    /** A JSON-only key: its element holds the embedded JSON text when the
        value is truthy, and stays empty otherwise. */
    method AppendJsonOnly(element: nat, key: string, value: Value, lib: Foreign) returns (err: Option<Exc>)
      requires Valid() && element < |nodes|
      modifies this
      ensures Valid() && old(|nodes|) <= |nodes|
      ensures forall m :: 0 <= m < old(|nodes|) && m != element ==> nodes[m] == old(nodes[m])
      ensures err == ErrorOf(JsonOnlyChild(key, value, lib))
      ensures err.None? ==> Tree(element) == old(Tree(element)).(children := old(Tree(element)).children +
        [JsonOnlyChild(key, value, lib).value])
    {
      ghost var s := nodes;
      var sub := SubElement(element, key, lib);
      if sub.Failure? {
        return Some(sub.error);
      }
      if Truthy(value) {
        var text := JsonText(value, lib);
        if text.Failure? {
          return Some(text.error);
        }
        err := SetText(sub.value, text.value, lib);
        if err.Some? {
          return;
        }
      }
      assert Tree(sub.value) == JsonOnlyChild(key, value, lib).value;
      ChildAppended(s, nodes, element, sub.value);
      err := None;
    }
  }

  /** After appending node `sub` (built by any later steps that changed only
      `sub` and new nodes) as the last child of `parent`, the parent's tree is
      the old one with the tree of `sub` added at the end. */
  lemma ChildAppended(s: seq<Node>, t: seq<Node>, parent: nat, sub: nat)
    requires WellFormed(s) && WellFormed(t) && parent < |s| && sub == |s| && sub < |t|
    requires t[parent] == s[parent].(kids := s[parent].kids + [sub])
    requires forall m :: 0 <= m < |s| && m != parent ==> t[m] == s[m]
    ensures TreeOf(t, parent) == TreeOf(s, parent).(children := TreeOf(s, parent).children + [TreeOf(t, sub)])
  {
    forall k | 0 <= k < |s[parent].kids|
      ensures TreeOf(t, t[parent].kids[k]) == TreeOf(s, s[parent].kids[k])
    {
      TreeFrame(s, t, s[parent].kids[k]);
    }
  }

  /** `to_xml`: build the tree in a fresh document rooted at the first key. */
  method ToXml(data: Value, lib: Foreign) returns (r: Result<Element, Exc>)
    ensures r == ToXmlTree(data, lib)
  {
    match data {
      case Dict(entries) =>
        if entries == [] {
          return Failure(PyError(IndexError, Plain("list index out of range")));
        }
        var root := entries[0].0;
        // the tag check `etree.Element(root)` makes before creating the root
        if !lib.validTag(root) {
          return Failure(InvalidTag(root));
        }
        var tree := new Document(root);
        var err := tree.ObjectToElement(entries[0].1, 0, lib);
        if err.Some? {
          return Failure(err.value);
        }
        return Success(tree.Tree(0));
      case _ =>
        return Failure(PyError(AttributeError, Plain("keys")));
    }
  }
}
