/** Tools of a Responses request under the one flat name space of Chat
    Completions: namespaced tools are flattened on the way out and restored on the
    way back. */
module NamespaceTools {
  import opened Common
  import opened ChatChunks
  import opened ResponsesAssembly

  // ----- Flat names -----

  /** Eight hexadecimal digits of a hash. Nothing else is known about it. */
  type Digest = s: string | |s| == 8 && forall i | 0 <= i < 8 :: s[i] in "0123456789abcdef" witness "00000000"

  /** Bytes of a rune in UTF-8. */
  function Width(c: char): (n: nat)
    ensures 1 <= n <= 4
  {
    if c as int < 0x80 then 1 else if c as int < 0x800 then 2 else if c as int < 0x1_0000 then 3 else 4
  }

  function ByteLen(s: string): (n: nat)
    ensures |s| <= n <= 4 * |s|
  {
    if s == "" then 0 else ByteLen(Init(s)) + Width(Last(s))
  }

  const MAX_NAME := 64
  const SEPARATOR := "__"

  lemma {:induction false} ByteLenAppend(a: string, b: string)
    ensures ByteLen(a + b) == ByteLen(a) + ByteLen(b)
  {
    if b == "" {
      assert a + b == a;
    } else {
      assert Init(a + b) == a + Init(b);
      ByteLenAppend(a, Init(b));
    }
  }

  lemma ByteLenSnoc(s: string, c: char)
    ensures ByteLen(s + [c]) == ByteLen(s) + Width(c)
  {
    InitOfSnoc(s, c);
  }

  lemma ByteLenEmpty()
    ensures ByteLen("") == 0
  {
  }

  lemma {:induction false} AsciiLen(s: string)
    requires forall i | 0 <= i < |s| :: s[i] as int < 0x80
    ensures ByteLen(s) == |s|
  {
    if s != "" {
      AsciiLen(Init(s));
    }
  }

  /** The longest prefix of whole runes that fits into so many bytes. */
  predicate LongestFit(p: string, s: string, budget: nat) {
    p <= s && ByteLen(p) <= budget && (p == s || ByteLen(s[..|p| + 1]) > budget)
  }

  function Fitting(s: string, budget: nat): (p: string)
    ensures LongestFit(p, s, budget)
  {
    if ByteLen(s) <= budget then s
    else
      var p := Fitting(Init(s), budget);
      assert p == Init(s) ==> s[..|p| + 1] == s;
      assert p != Init(s) ==> s[..|p| + 1] == Init(s)[..|p| + 1];
      p
  }

  lemma {:induction false} ByteLenMonotone(s: string, n: nat)
    requires n <= |s|
    ensures ByteLen(s[..n]) <= ByteLen(s)
  {
    assert s == s[..n] + s[n..];
    ByteLenAppend(s[..n], s[n..]);
  }

  /** There is only one such prefix. */
  lemma FitIsUnique(p: string, s: string, budget: nat)
    requires LongestFit(p, s, budget)
    ensures p == Fitting(s, budget)
  {
    var q := Fitting(s, budget);
    if |p| < |q| {
      assert q[..|p| + 1] == s[..|p| + 1];
      ByteLenMonotone(q, |p| + 1);
    } else if |q| < |p| {
      assert p[..|q| + 1] == s[..|q| + 1];
      ByteLenMonotone(p, |q| + 1);
    }
  }

  function FullName(namespace: string, name: string): string {
    namespace + SEPARATOR + name
  }

  function FlatName(hash: string -> Digest, namespace: string, name: string): string {
    var full := FullName(namespace, name);
    if ByteLen(full) <= MAX_NAME then full
    else Fitting(full, MAX_NAME - |SEPARATOR| - 8) + (SEPARATOR + hash(full))
  }

  /** flattenNamespaceToolName */
  method Flatten(hash: string -> Digest, namespace: string, name: string) returns (flat: string)
    ensures flat == FlatName(hash, namespace, name)
  {
    hide ByteLen, Width, Fitting;
    var full := namespace + SEPARATOR + name;
    if ByteLen(full) <= MAX_NAME {
      return full;
    }
    var suffix := SEPARATOR + hash(full);
    SuffixLen(hash(full));
    var prefixLen := MAX_NAME - ByteLen(suffix);
    var prefix := "";
    ByteLenEmpty();
    var i := 0;
    while i < |full|
      invariant 0 <= i <= |full| && prefix == full[..i] && ByteLen(prefix) <= prefixLen
    {
      assert full[..i + 1] == full[..i] + [full[i]];
      ByteLenSnoc(full[..i], full[i]);
      if ByteLen(prefix) + Width(full[i]) > prefixLen {
        break;
      }
      prefix := prefix + [full[i]];
      i := i + 1;
    }
    assert full[..|full|] == full;
    FitIsUnique(prefix, full, prefixLen);
    flat := prefix + suffix;
  }

  lemma SuffixLen(d: Digest)
    ensures ByteLen(SEPARATOR + d) == 10
  {
    AsciiLen(SEPARATOR + d);
  }

  predicate HasSeparator(s: string) {
    exists i | 0 <= i <= |s| - 2 :: s[i] == '_' && s[i + 1] == '_'
  }

  /** A flat name is the namespace and the name with "__" between, cut short and with
      a hash of all of it when it is too long. */
  lemma FlatNameTells(hash: string -> Digest, namespace: string, name: string)
    ensures var full, flat := namespace + "__" + name, FlatName(hash, namespace, name);
            if ByteLen(full) <= 64 then flat == full
            else flat == Fitting(full, 54) + ("__" + hash(full)) && LongestFit(Fitting(full, 54), full, 54)
  {
    hide ByteLen, LongestFit, Fitting;
    assert FullName(namespace, name) == namespace + "__" + name;
  }

  /** A flat name fits the limit of the API and is never the name of the
      tool_search proxy. */
  lemma FlatNameFits(hash: string -> Digest, namespace: string, name: string)
    ensures ByteLen(FlatName(hash, namespace, name)) <= MAX_NAME
    ensures FlatName(hash, namespace, name) != TOOL_SEARCH
  {
    hide ByteLen, Width, Fitting;
    var full := FullName(namespace, name);
    var flat := FlatName(hash, namespace, name);
    var at := |namespace|;
    assert full[at] == '_' && full[at + 1] == '_';
    if ByteLen(full) > MAX_NAME {
      var p := Fitting(full, 54);
      SuffixLen(hash(full));
      ByteLenAppend(p, SEPARATOR + hash(full));
      assert flat[|p|] == '_' && flat[|p| + 1] == '_';
    }
    assert HasSeparator(flat);
  }

  // ----- Declared tools -----

  /** A tool of the request; a namespace lists its tools under either name. */
  datatype Tool = Tool(
    kind: string, name: string, description: string, parameters: string, strict: Option<bool>,
    tools: seq<Tool>, children: seq<Tool>)

  datatype ChatTool = ChatTool(name: string, description: string, parameters: string, strict: Option<bool>)

  const FUNCTION := "function"
  const CUSTOM := "custom"
  const NAMESPACE := "namespace"
  // What the bridge says about the two proxies it declares itself.
  const CUSTOM_SCHEMA := "an object with the required string input"
  const SEARCH_SCHEMA := "an object with the required string query and an integer limit"
  const SEARCH_PROXY := ChatTool(TOOL_SEARCH, "searches and loads tools", SEARCH_SCHEMA, None)

  function ChildrenOf(t: Tool): seq<Tool> {
    if t.tools != [] then t.tools else t.children
  }

  /** What the request declares, in order: a top-level tool, the built-in search, or
      one child of a namespace. */
  datatype Declaration = TopLevel(tool: ChatTool, custom: bool) | Search | Child(namespace: string, tool: ChatTool)

  function AsChatTool(t: Tool): ChatTool {
    if t.kind == CUSTOM then ChatTool(t.name, t.description, CUSTOM_SCHEMA, None)
    else ChatTool(t.name, t.description, t.parameters, t.strict)
  }

  function ChildDeclarations(namespace: string, ts: seq<Tool>): seq<Declaration> {
    if ts == [] then []
    else
      ChildDeclarations(namespace, Init(ts)) +
      (if Last(ts).kind == FUNCTION && Last(ts).name != "" then [Child(namespace, AsChatTool(Last(ts)))] else [])
  }

  function DeclarationsOf(t: Tool): seq<Declaration> {
    if t.kind == FUNCTION || t.kind == CUSTOM then [TopLevel(AsChatTool(t), t.kind == CUSTOM)]
    else if t.kind == TOOL_SEARCH then [Search]
    else if t.kind == NAMESPACE && t.name != "" then ChildDeclarations(t.name, ChildrenOf(t))
    else []
  }

  function Declarations(ts: seq<Tool>): seq<Declaration> {
    if ts == [] then [] else Declarations(Init(ts)) + DeclarationsOf(Last(ts))
  }

  // ----- What the names stand for -----

  predicate Names(ds: seq<Declaration>, name: string) {
    exists i | 0 <= i < |ds| :: ds[i].TopLevel? && ds[i].tool.name == name
  }

  predicate NamesCustom(ds: seq<Declaration>, name: string) {
    exists i | 0 <= i < |ds| :: ds[i].TopLevel? && ds[i].custom && ds[i].tool.name == name
  }

  predicate HasChild(ds: seq<Declaration>, namespace: string, name: string) {
    exists i | 0 <= i < |ds| :: ds[i].Child? && ds[i].namespace == namespace && ds[i].tool.name == name
  }

  function FlatOf(hash: string -> Digest, d: Declaration): string
    requires d.Child?
  {
    FlatName(hash, d.namespace, d.tool.name)
  }

  /** What is declared in `ds` can be told apart from each other and from the
      top-level tools of `all`. */
  ghost predicate Fine(hash: string -> Digest, all: seq<Declaration>, ds: seq<Declaration>) {
    && (Search in ds ==> !Names(all, TOOL_SEARCH))
    && (forall d | d in ds && d.Child? :: !Names(all, FlatOf(hash, d)))
    && (forall d, e | d in ds && e in ds && d.Child? && e.Child? && FlatOf(hash, d) == FlatOf(hash, e) :: SameChild(d, e))
  }

  predicate SameChild(d: Declaration, e: Declaration)
    requires d.Child? && e.Child?
  {
    d.namespace == e.namespace && d.tool.name == e.tool.name
  }

  /** Nothing declared would be confused in one flat name space. */
  ghost predicate Unambiguous(hash: string -> Digest, ds: seq<Declaration>) {
    Fine(hash, ds, ds)
  }

  function ConvertedOne(hash: string -> Digest, ds: seq<Declaration>, d: Declaration): seq<ChatTool> {
    match d
    case TopLevel(tool, _) => [tool]
    case Search => if Search in ds then [] else [SEARCH_PROXY]
    case Child(ns, tool) => if HasChild(ds, ns, tool.name) then [] else [tool.(name := FlatName(hash, ns, tool.name))]
  }

  /** Each declaration becomes one function tool; a search or child that was
      declared before does not come again. */
  function Converted(hash: string -> Digest, ds: seq<Declaration>): seq<ChatTool> {
    if ds == [] then [] else Converted(hash, Init(ds)) + ConvertedOne(hash, Init(ds), Last(ds))
  }

  // ----- The conversion loops -----

  ghost predicate Owners(hash: string -> Digest, owner: map<string, (string, string)>, ds: seq<Declaration>) {
    && (forall d | d in ds && d.Child? :: FlatOf(hash, d) in owner && owner[FlatOf(hash, d)] == (d.namespace, d.tool.name))
    && (forall f | f in owner :: f == FlatName(hash, owner[f].0, owner[f].1) && HasChild(ds, owner[f].0, owner[f].1))
  }

  lemma HasChildSnoc(ds: seq<Declaration>, d: Declaration, namespace: string, name: string)
    ensures HasChild(ds + [d], namespace, name)
            <==> HasChild(ds, namespace, name) || (d.Child? && d.namespace == namespace && d.tool.name == name)
  {
    var es := ds + [d];
    if HasChild(ds, namespace, name) {
      var i :| 0 <= i < |ds| && ds[i].Child? && ds[i].namespace == namespace && ds[i].tool.name == name;
      assert es[i] == ds[i];
    } else if d.Child? && d.namespace == namespace && d.tool.name == name {
      assert es[|ds|] == d;
    }
  }

  lemma HasChildIn(ds: seq<Declaration>, d: Declaration)
    requires d in ds && d.Child?
    ensures HasChild(ds, d.namespace, d.tool.name)
  {
  }

  /** No earlier child has the flat name of another. */
  ghost predicate NoClash(hash: string -> Digest, ds: seq<Declaration>, d: Declaration)
    requires d.Child?
  {
    forall e | e in ds && e.Child? && FlatOf(hash, e) == FlatOf(hash, d) :: SameChild(e, d)
  }

  lemma FineSnoc(hash: string -> Digest, all: seq<Declaration>, ds: seq<Declaration>, d: Declaration)
    requires d.Child? && Fine(hash, all, ds)
    ensures Fine(hash, all, ds + [d]) <==> !Names(all, FlatOf(hash, d)) && NoClash(hash, ds, d)
  {
    hide FlatOf, Names;
    var es := ds + [d];
    assert d in es && forall e | e in ds :: e in es;
    assert forall e | e in es :: e == d || e in ds;
  }

  lemma OwnersTell(hash: string -> Digest, owner: map<string, (string, string)>, ds: seq<Declaration>, d: Declaration)
    requires d.Child? && Owners(hash, owner, ds)
    ensures var flat := FlatOf(hash, d);
            (flat in owner && owner[flat] != (d.namespace, d.tool.name) <==> !NoClash(hash, ds, d)) &&
            (NoClash(hash, ds, d) ==> (flat in owner <==> HasChild(ds, d.namespace, d.tool.name)))
  {
    hide FlatName;
    var flat := FlatOf(hash, d);
    if flat in owner {
      var i :| 0 <= i < |ds| && ds[i].Child? && ds[i].namespace == owner[flat].0 && ds[i].tool.name == owner[flat].1;
      assert ds[i] in ds && FlatOf(hash, ds[i]) == flat;
    }
    if HasChild(ds, d.namespace, d.tool.name) {
      var i :| 0 <= i < |ds| && ds[i].Child? && ds[i].namespace == d.namespace && ds[i].tool.name == d.tool.name;
      assert ds[i] in ds;
    }
  }

  lemma OwnersSnoc(hash: string -> Digest, owner: map<string, (string, string)>, ds: seq<Declaration>, d: Declaration)
    requires d.Child? && Owners(hash, owner, ds) && NoClash(hash, ds, d)
    ensures Owners(hash, owner[FlatOf(hash, d) := (d.namespace, d.tool.name)], ds + [d])
  {
    hide FlatName, HasChild;
    var flat, es := FlatOf(hash, d), ds + [d];
    var after := owner[flat := (d.namespace, d.tool.name)];
    assert d in es && forall e | e in es :: e == d || e in ds;
    HasChildIn(es, d);
    forall f | f in after
      ensures f == FlatName(hash, after[f].0, after[f].1) && HasChild(es, after[f].0, after[f].1)
    {
      if f != flat {
        HasChildSnoc(ds, d, owner[f].0, owner[f].1);
      }
    }
  }

  /** One more child: what its lookup in the map of owners tells. */
  lemma ChildStep(
    hash: string -> Digest, all: seq<Declaration>, ds: seq<Declaration>, owner: map<string, (string, string)>, d: Declaration)
    requires d.Child? && Fine(hash, all, ds) && Owners(hash, owner, ds)
    ensures var flat := FlatOf(hash, d);
            var pair := (d.namespace, d.tool.name);
            if Names(all, flat) || (flat in owner && owner[flat] != pair) then !Fine(hash, all, ds + [d])
            else
              Fine(hash, all, ds + [d]) &&
              (flat in owner <==> HasChild(ds, d.namespace, d.tool.name)) &&
              Owners(hash, owner[flat := pair], ds + [d])
  {
    hide FlatOf, Names, Fine, Owners, HasChild, NoClash;
    FineSnoc(hash, all, ds, d);
    OwnersTell(hash, owner, ds, d);
    if NoClash(hash, ds, d) {
      OwnersSnoc(hash, owner, ds, d);
    }
  }

  lemma ConvertedSnoc(hash: string -> Digest, ds: seq<Declaration>, d: Declaration)
    ensures Converted(hash, ds + [d]) == Converted(hash, ds) + ConvertedOne(hash, ds, d)
  {
    InitOfSnoc(ds, d);
  }

  /** namespaceChildrenToChatTools; `ds` is what was declared before. */
  method ConvertChildren(
    hash: string -> Digest, ghost all: seq<Declaration>, ghost ds: seq<Declaration>,
    tool: Tool, topLevel: set<string>, flatOwner: map<string, (string, string)>)
    returns (ok: bool, out: seq<ChatTool>, owner: map<string, (string, string)>)
    requires tool.name != "" && Fine(hash, all, ds) && Owners(hash, flatOwner, ds)
    requires forall n :: n in topLevel <==> n != "" && Names(all, n)
    ensures var es := ds + ChildDeclarations(tool.name, ChildrenOf(tool));
            ok == Fine(hash, all, es) &&
            (ok ==> Owners(hash, owner, es) && Converted(hash, ds) + out == Converted(hash, es))
  {
    hide Fine, Owners, Converted, ConvertedOne, FlatName, Names;
    ok, out, owner := true, [], flatOwner;
    var children := if |tool.tools| == 0 then tool.children else tool.tools;
    assert ds + [] == ds && Converted(hash, ds) + [] == Converted(hash, ds);
    for i := 0 to |children|
      invariant ok
      invariant var es := ds + ChildDeclarations(tool.name, children[..i]);
                Fine(hash, all, es) && Owners(hash, owner, es) && Converted(hash, ds) + out == Converted(hash, es)
    {
      var child := children[i];
      ghost var es := ds + ChildDeclarations(tool.name, children[..i]);
      assert Init(children[..i + 1]) == children[..i] && Last(children[..i + 1]) == child;
      if child.kind != FUNCTION || child.name == "" {
        assert ChildDeclarations(tool.name, children[..i + 1]) == ChildDeclarations(tool.name, children[..i]);
        continue;
      }
      ghost var d := Child(tool.name, AsChatTool(child));
      assert es + [d] == ds + ChildDeclarations(tool.name, children[..i + 1]);
      var flat := Flatten(hash, tool.name, child.name);
      ChildStep(hash, all, es, owner, d);
      ConvertedSnoc(hash, es, d);
      if flat in topLevel {
        ok := false;
        NotFineLater(hash, all, ds, tool.name, children, i + 1);
        return;
      }
      FlatNotEmpty(hash, tool.name, child.name);
      if flat in owner {
        if owner[flat] == (tool.name, child.name) {
          assert owner[flat := owner[flat]] == owner;
          RepeatedChild(hash, es, d);
          continue;
        }
        ok := false;
        NotFineLater(hash, all, ds, tool.name, children, i + 1);
        return;
      }
      owner := owner[flat := (tool.name, child.name)];
      NewChild(hash, es, d);
      out := out + [ChatTool(flat, child.description, child.parameters, child.strict)];
    }
    assert children[..|children|] == children;
  }

  lemma FlatNotEmpty(hash: string -> Digest, namespace: string, name: string)
    ensures FlatName(hash, namespace, name) != ""
  {
  }

  lemma RepeatedChild(hash: string -> Digest, ds: seq<Declaration>, d: Declaration)
    requires d.Child? && HasChild(ds, d.namespace, d.tool.name)
    ensures ConvertedOne(hash, ds, d) == []
  {
  }

  lemma NewChild(hash: string -> Digest, ds: seq<Declaration>, d: Declaration)
    requires d.Child? && !HasChild(ds, d.namespace, d.tool.name)
    ensures ConvertedOne(hash, ds, d) == [d.tool.(name := FlatOf(hash, d))]
  {
  }

  lemma FineForPrefix(hash: string -> Digest, all: seq<Declaration>, ds: seq<Declaration>, es: seq<Declaration>)
    requires ds <= es && Fine(hash, all, es)
    ensures Fine(hash, all, ds)
  {
    hide Names, FlatOf;
    assert forall d | d in ds :: d in es;
  }

  lemma {:induction false} ChildrenPrefix(namespace: string, ts: seq<Tool>, i: nat)
    requires i <= |ts|
    ensures ChildDeclarations(namespace, ts[..i]) <= ChildDeclarations(namespace, ts)
  {
    if i < |ts| {
      ChildrenPrefix(namespace, Init(ts), i);
      assert Init(ts)[..i] == ts[..i];
    } else {
      assert ts[..i] == ts;
    }
  }

  lemma NotFineLater(
    hash: string -> Digest, all: seq<Declaration>, ds: seq<Declaration>, namespace: string, ts: seq<Tool>, i: nat)
    requires i <= |ts| && !Fine(hash, all, ds + ChildDeclarations(namespace, ts[..i]))
    ensures !Fine(hash, all, ds + ChildDeclarations(namespace, ts))
  {
    hide Fine;
    ChildrenPrefix(namespace, ts, i);
    if Fine(hash, all, ds + ChildDeclarations(namespace, ts)) {
      FineForPrefix(hash, all, ds + ChildDeclarations(namespace, ts[..i]), ds + ChildDeclarations(namespace, ts));
    }
  }

  lemma {:induction false} DeclarationsPrefix(ts: seq<Tool>, i: nat)
    requires i <= |ts|
    ensures Declarations(ts[..i]) <= Declarations(ts)
  {
    if i < |ts| {
      DeclarationsPrefix(Init(ts), i);
      assert Init(ts)[..i] == ts[..i];
    } else {
      assert ts[..i] == ts;
    }
  }

  lemma NamesAppend(a: seq<Declaration>, b: seq<Declaration>, n: string)
    ensures Names(a + b, n) <==> Names(a, n) || Names(b, n)
  {
    if Names(a, n) {
      var i :| 0 <= i < |a| && a[i].TopLevel? && a[i].tool.name == n;
      assert (a + b)[i] == a[i];
    }
    if Names(b, n) {
      var i :| 0 <= i < |b| && b[i].TopLevel? && b[i].tool.name == n;
      assert (a + b)[|a| + i] == b[i];
    }
  }

  lemma {:induction false} ChildrenNameNothing(namespace: string, ts: seq<Tool>, n: string)
    ensures !Names(ChildDeclarations(namespace, ts), n)
  {
    if ts != [] {
      ChildrenNameNothing(namespace, Init(ts), n);
    }
  }

  lemma NamesOf(t: Tool, n: string)
    ensures Names(DeclarationsOf(t), n) <==> (t.kind == FUNCTION || t.kind == CUSTOM) && t.name == n
  {
    ChildrenNameNothing(t.name, ChildrenOf(t), n);
    if (t.kind == FUNCTION || t.kind == CUSTOM) && t.name == n {
      assert DeclarationsOf(t)[0].tool.name == n;
    }
  }

  method TopLevelNames(tools: seq<Tool>) returns (topLevel: set<string>)
    ensures forall n :: n in topLevel <==> n != "" && Names(Declarations(tools), n)
  {
    hide Names, DeclarationsOf;
    topLevel := {};
    NothingNamed();
    for i := 0 to |tools|
      invariant forall n :: n in topLevel <==> n != "" && Names(Declarations(tools[..i]), n)
    {
      var t := tools[i];
      assert Init(tools[..i + 1]) == tools[..i] && Last(tools[..i + 1]) == t;
      forall n ensures Names(Declarations(tools[..i + 1]), n)
                       <==> Names(Declarations(tools[..i]), n) || ((t.kind == FUNCTION || t.kind == CUSTOM) && t.name == n)
      {
        NamesAppend(Declarations(tools[..i]), DeclarationsOf(t), n);
        NamesOf(t, n);
      }
      if (t.kind == FUNCTION || t.kind == CUSTOM) && t.name != "" {
        topLevel := topLevel + {t.name};
      }
    }
    assert tools[..|tools|] == tools;
  }

  lemma NothingNamed()
    ensures forall n :: !Names([], n)
  {
  }

  lemma OtherStep(
    hash: string -> Digest, all: seq<Declaration>, ds: seq<Declaration>, owner: map<string, (string, string)>, d: Declaration)
    requires !d.Child? && Fine(hash, all, ds) && Owners(hash, owner, ds)
    ensures Fine(hash, all, ds + [d]) <==> !(d.Search? && Names(all, TOOL_SEARCH))
    ensures Owners(hash, owner, ds + [d])
    ensures Search in ds + [d] <==> Search in ds || d.Search?
  {
    hide Names, FlatOf;
    var es := ds + [d];
    assert d in es && forall e | e in es :: e == d || e in ds;
    assert forall e | e in ds :: e in es;
    forall f | f in owner ensures HasChild(es, owner[f].0, owner[f].1) {
      HasChildSnoc(ds, d, owner[f].0, owner[f].1);
    }
  }

  lemma NoDeclarations(hash: string -> Digest, all: seq<Declaration>)
    ensures Fine(hash, all, []) && Owners(hash, map[], []) && Converted(hash, []) == []
  {
  }

  lemma ChildrenAreNoSearch(namespace: string, ts: seq<Tool>)
    ensures Search !in ChildDeclarations(namespace, ts)
  {
  }

  lemma NotFineAtAll(hash: string -> Digest, ts: seq<Tool>, i: nat)
    requires i <= |ts| && !Fine(hash, Declarations(ts), Declarations(ts[..i]))
    ensures !Unambiguous(hash, Declarations(ts))
  {
    hide Fine, Declarations;
    DeclarationsPrefix(ts, i);
    if Unambiguous(hash, Declarations(ts)) {
      FineForPrefix(hash, Declarations(ts), Declarations(ts[..i]), Declarations(ts));
    }
  }

  /** responsesToolsToChatTools: accepts exactly the lists in which nothing would be
      confused, and converts each declaration once. */
  method ToChatTools(hash: string -> Digest, tools: seq<Tool>) returns (r: Result<seq<ChatTool>>)
    ensures r.Ok? <==> Unambiguous(hash, Declarations(tools))
    ensures r.Ok? ==> r.value == Converted(hash, Declarations(tools))
  {
    hide Fine, Owners, Converted, Names, FlatOf, ChildDeclarations;
    var topLevel := TopLevelNames(tools);
    var flatOwner: map<string, (string, string)> := map[];
    var toolSearchDeclared := false;
    var out: seq<ChatTool> := [];
    ghost var all := Declarations(tools);
    NoDeclarations(hash, all);
    for i := 0 to |tools|
      invariant var ds := Declarations(tools[..i]);
                Fine(hash, all, ds) && Owners(hash, flatOwner, ds) && out == Converted(hash, ds) &&
                (toolSearchDeclared <==> Search in ds)
    {
      var tool := tools[i];
      ghost var ds := Declarations(tools[..i]);
      assert Init(tools[..i + 1]) == tools[..i] && Last(tools[..i + 1]) == tool;
      assert Declarations(tools[..i + 1]) == ds + DeclarationsOf(tool);
      if tool.kind == FUNCTION {
        ghost var d := TopLevel(AsChatTool(tool), false);
        OtherStep(hash, all, ds, flatOwner, d);
        ConvertedSnoc(hash, ds, d);
        out := out + [ChatTool(tool.name, tool.description, tool.parameters, tool.strict)];
      } else if tool.kind == CUSTOM {
        ghost var d := TopLevel(AsChatTool(tool), true);
        OtherStep(hash, all, ds, flatOwner, d);
        ConvertedSnoc(hash, ds, d);
        out := out + [ChatTool(tool.name, tool.description, CUSTOM_SCHEMA, None)];
      } else if tool.kind == TOOL_SEARCH {
        OtherStep(hash, all, ds, flatOwner, Search);
        ConvertedSnoc(hash, ds, Search);
        if TOOL_SEARCH in topLevel {
          NotFineAtAll(hash, tools, i + 1);
          return Err;
        }
        if !toolSearchDeclared {
          toolSearchDeclared := true;
          out := out + [SEARCH_PROXY];
        }
      } else if tool.kind == NAMESPACE {
        if tool.name != "" {
          ChildrenAreNoSearch(tool.name, ChildrenOf(tool));
          var ok, flattened, owner := ConvertChildren(hash, all, ds, tool, topLevel, flatOwner);
          if !ok {
            NotFineAtAll(hash, tools, i + 1);
            return Err;
          }
          flatOwner := owner;
          out := out + flattened;
        } else {
          assert ds + [] == ds;
        }
      } else {
        assert ds + [] == ds;
      }
    }
    assert tools[..|tools|] == tools;
    r := Ok(out);
  }

  function CountNamed(ts: seq<ChatTool>, n: string): nat {
    if ts == [] then 0 else CountNamed(Init(ts), n) + (if Last(ts).name == n then 1 else 0)
  }

  lemma CountSnoc(a: seq<ChatTool>, b: seq<ChatTool>, n: string)
    requires |b| <= 1
    ensures CountNamed(a + b, n) == CountNamed(a, n) + (if b != [] && b[0].name == n then 1 else 0)
  {
    if b == [] {
      assert a + b == a;
    } else {
      assert b == [b[0]];
      InitOfSnoc(a, b[0]);
    }
  }

  /** Among unambiguous declarations only `d` itself carries its flat name. */
  lemma OnlyItsName(hash: string -> Digest, all: seq<Declaration>, e: Declaration, d: Declaration)
    requires Unambiguous(hash, all) && d in all && d.Child? && e in all
    ensures match e
            case TopLevel(tool, _) => tool.name != FlatOf(hash, d)
            case Search => TOOL_SEARCH != FlatOf(hash, d)
            case Child(_, _) => FlatOf(hash, e) == FlatOf(hash, d) <==> SameChild(e, d)
  {
    hide FlatName;
    FlatNameFits(hash, d.namespace, d.tool.name);
    if e.TopLevel? {
      assert Names(all, e.tool.name);
    }
  }

  lemma OneCount(hash: string -> Digest, ds: seq<Declaration>, e: Declaration, d: Declaration)
    requires d.Child?
    requires match e
             case TopLevel(tool, _) => tool.name != FlatOf(hash, d)
             case Search => TOOL_SEARCH != FlatOf(hash, d)
             case Child(_, _) => FlatOf(hash, e) == FlatOf(hash, d) <==> SameChild(e, d)
    ensures var one := ConvertedOne(hash, ds, e);
            |one| <= 1 &&
            (one != [] && one[0].name == FlatOf(hash, d)
             <==> e.Child? && SameChild(e, d) && !HasChild(ds, d.namespace, d.tool.name))
  {
    hide FlatName, HasChild;
  }

  /** Each declared child becomes exactly one function tool. */
  lemma {:induction false} EachChildOnce(hash: string -> Digest, all: seq<Declaration>, ds: seq<Declaration>, d: Declaration)
    requires Unambiguous(hash, all) && d in all && d.Child? && ds <= all
    ensures CountNamed(Converted(hash, ds), FlatOf(hash, d)) == if HasChild(ds, d.namespace, d.tool.name) then 1 else 0
  {
    if ds != [] {
      var before, e := Init(ds), Last(ds);
      assert ds == before + [e] && all[|ds| - 1] == e && e in all;
      hide Unambiguous, FlatName, HasChild, ConvertedOne, CountNamed, FlatOf;
      EachChildOnce(hash, all, before, d);
      HasChildSnoc(before, e, d.namespace, d.tool.name);
      OnlyItsName(hash, all, e, d);
      OneCount(hash, before, e, d);
      CountSnoc(Converted(hash, before), ConvertedOne(hash, before, e), FlatOf(hash, d));
    }
  }

  // ----- What each tool is declared as -----

  /** How a declaration is shown to the upstream. */
  predicate ShownAs(hash: string -> Digest, d: Declaration, c: ChatTool) {
    match d
    case TopLevel(tool, _) => c == tool
    case Search => c == SEARCH_PROXY
    case Child(ns, tool) =>
      c.name == FlatName(hash, ns, tool.name) && c.description == tool.description && c.parameters == tool.parameters &&
      c.strict == tool.strict
  }

  /** Two declarations of the same thing, of which the first is shown. */
  predicate SameDeclaration(d: Declaration, e: Declaration) {
    d == e || (d.Child? && e.Child? && SameChild(d, e))
  }

  lemma {:induction false} DeclaredAreShown(hash: string -> Digest, ds: seq<Declaration>, d: Declaration)
    requires d in ds
    ensures exists c, e :: c in Converted(hash, ds) && e in ds && SameDeclaration(e, d) && ShownAs(hash, e, c)
  {
    hide FlatName, ConvertedOne;
    var before, x := Init(ds), Last(ds);
    assert ds == before + [x];
    if d in before {
      DeclaredAreShown(hash, before, d);
      var c, e :| c in Converted(hash, before) && e in before && SameDeclaration(e, d) && ShownAs(hash, e, c);
      assert c in Converted(hash, ds) && e in ds;
    } else if x == Search && Search in before {
      assert false;
    } else if x.Child? && HasChild(before, x.namespace, x.tool.name) {
      var i :| 0 <= i < |before| && before[i].Child? && before[i].namespace == x.namespace && before[i].tool.name == x.tool.name;
      DeclaredAreShown(hash, before, before[i]);
      var c, e :| c in Converted(hash, before) && e in before && SameDeclaration(e, before[i]) && ShownAs(hash, e, c);
      assert c in Converted(hash, ds) && e in ds && SameDeclaration(e, d);
    } else {
      NewIsShown(hash, before, x);
      var c := ConvertedOne(hash, before, x)[0];
      assert c in Converted(hash, ds) && x in ds && SameDeclaration(x, d) && ShownAs(hash, x, c);
    }
  }

  lemma NewIsShown(hash: string -> Digest, before: seq<Declaration>, x: Declaration)
    requires !(x == Search && Search in before) && !(x.Child? && HasChild(before, x.namespace, x.tool.name))
    ensures |ConvertedOne(hash, before, x)| == 1 && ShownAs(hash, x, ConvertedOne(hash, before, x)[0])
  {
    hide FlatName, HasChild;
  }

  lemma OneShows(hash: string -> Digest, before: seq<Declaration>, x: Declaration, c: ChatTool)
    requires c in ConvertedOne(hash, before, x)
    ensures ShownAs(hash, x, c)
  {
    hide FlatName, HasChild;
  }

  /** Nothing is shown that was not declared. */
  lemma {:induction false} ShownAreDeclared(hash: string -> Digest, ds: seq<Declaration>, c: ChatTool)
    requires c in Converted(hash, ds)
    ensures exists d :: d in ds && ShownAs(hash, d, c)
  {
    hide ConvertedOne, ShownAs;
    var before, x := Init(ds), Last(ds);
    assert ds == before + [x];
    if c in Converted(hash, before) {
      ShownAreDeclared(hash, before, c);
      var d :| d in before && ShownAs(hash, d, c);
      assert d in ds;
    } else {
      OneShows(hash, before, x, c);
      assert x in ds;
    }
  }

  lemma {:induction false} DeclarationIn(ts: seq<Tool>, t: Tool, d: Declaration)
    requires t in ts && d in DeclarationsOf(t)
    ensures d in Declarations(ts)
  {
    hide DeclarationsOf;
    if t in Init(ts) {
      DeclarationIn(Init(ts), t, d);
    } else {
      assert ts == Init(ts) + [Last(ts)];
    }
  }

  lemma {:induction false} ChildDeclared(namespace: string, ts: seq<Tool>, t: Tool)
    requires t in ts && t.kind == "function" && t.name != ""
    ensures Child(namespace, ChatTool(t.name, t.description, t.parameters, t.strict)) in ChildDeclarations(namespace, ts)
  {
    assert CUSTOM[0] != FUNCTION[0];
    if t in Init(ts) {
      ChildDeclared(namespace, Init(ts), t);
    } else {
      assert ts == Init(ts) + [Last(ts)];
    }
  }

  /** Every tool of the request is declared as it is: a function under its own name,
      description, parameters and strictness, a custom tool as a function of one input
      string, the children of a namespace under that namespace. */
  lemma ToolsDeclared(ts: seq<Tool>, t: Tool, child: Tool)
    requires t in ts
    ensures var ds := Declarations(ts);
            && (t.kind == "function" ==> TopLevel(ChatTool(t.name, t.description, t.parameters, t.strict), false) in ds)
            && (t.kind == "custom" ==> TopLevel(ChatTool(t.name, t.description, CUSTOM_SCHEMA, None), true) in ds)
            && (t.kind == "tool_search" ==> Search in ds)
            && (t.kind == "namespace" && t.name != "" && child in (if t.tools != [] then t.tools else t.children) &&
                child.kind == "function" && child.name != "" ==>
                  Child(t.name, ChatTool(child.name, child.description, child.parameters, child.strict)) in ds)
  {
    assert CUSTOM[0] != FUNCTION[0] && "tool_search"[0] == 't' && "namespace"[0] == 'n';
    forall d | d in DeclarationsOf(t) ensures d in Declarations(ts) {
      DeclarationIn(ts, t, d);
    }
    hide Declarations;
    if t.kind == "namespace" && child in ChildrenOf(t) && child.kind == "function" && child.name != "" {
      ChildDeclared(t.name, ChildrenOf(t), child);
    }
  }

  // ----- The way back -----

  /** NamespaceToolNames: which namespace and name a flat name stands for. */
  function NamesToRestore(hash: string -> Digest, ds: seq<Declaration>): map<string, (string, string)> {
    if ds == [] then map[]
    else
      var m := NamesToRestore(hash, Init(ds));
      if Last(ds).Child? then m[FlatOf(hash, Last(ds)) := (Last(ds).namespace, Last(ds).tool.name)] else m
  }

  method NamespaceToolNames(hash: string -> Digest, tools: seq<Tool>) returns (names: map<string, (string, string)>)
    ensures names == NamesToRestore(hash, Declarations(tools))
  {
    hide FlatOf;
    names := map[];
    for i := 0 to |tools|
      invariant names == NamesToRestore(hash, Declarations(tools[..i]))
    {
      var tool := tools[i];
      ghost var ds := Declarations(tools[..i]);
      assert Init(tools[..i + 1]) == tools[..i] && Last(tools[..i + 1]) == tool;
      if tool.kind != NAMESPACE || tool.name == "" {
        RestoreOthers(hash, ds, tool);
        continue;
      }
      var children := if |tool.tools| == 0 then tool.children else tool.tools;
      assert ds + [] == ds;
      for j := 0 to |children|
        invariant names == NamesToRestore(hash, ds + ChildDeclarations(tool.name, children[..j]))
      {
        var child := children[j];
        assert Init(children[..j + 1]) == children[..j] && Last(children[..j + 1]) == child;
        ghost var es := ds + ChildDeclarations(tool.name, children[..j]);
        if child.kind != FUNCTION || child.name == "" {
          assert ChildDeclarations(tool.name, children[..j + 1]) == ChildDeclarations(tool.name, children[..j]);
          continue;
        }
        ghost var d := Child(tool.name, AsChatTool(child));
        assert es + [d] == ds + ChildDeclarations(tool.name, children[..j + 1]);
        InitOfSnoc(es, d);
        var flat := Flatten(hash, tool.name, child.name);
        names := names[flat := (tool.name, child.name)];
        assert FlatOf(hash, d) == flat by { FlatOfChild(hash, d); }
      }
      assert children[..|children|] == children;
    }
    assert tools[..|tools|] == tools;
  }

  lemma FlatOfChild(hash: string -> Digest, d: Declaration)
    requires d.Child?
    ensures FlatOf(hash, d) == FlatName(hash, d.namespace, d.tool.name)
  {
  }

  lemma RestoreOthers(hash: string -> Digest, ds: seq<Declaration>, t: Tool)
    requires t.kind != NAMESPACE || t.name == ""
    ensures NamesToRestore(hash, ds + DeclarationsOf(t)) == NamesToRestore(hash, ds)
  {
    var es := DeclarationsOf(t);
    if es == [] {
      assert ds + es == ds;
    } else {
      assert es == [es[0]];
      InitOfSnoc(ds, es[0]);
    }
  }

  lemma {:induction false} RestoreKeys(hash: string -> Digest, ds: seq<Declaration>, f: string)
    ensures var m := NamesToRestore(hash, ds);
            (f in m <==> exists d :: d in ds && d.Child? && FlatOf(hash, d) == f) &&
            (f in m ==> HasChild(ds, m[f].0, m[f].1) && f == FlatName(hash, m[f].0, m[f].1))
  {
    if ds != [] {
      RestoreKeys(hash, Init(ds), f);
      assert ds == Init(ds) + [Last(ds)];
      var m := NamesToRestore(hash, Init(ds));
      if f in m {
        HasChildSnoc(Init(ds), Last(ds), m[f].0, m[f].1);
      }
      if Last(ds).Child? {
        HasChildSnoc(Init(ds), Last(ds), Last(ds).namespace, Last(ds).tool.name);
      }
    }
  }

  /** CustomToolNames and HasToolSearchTool, with the map above: what the response
      side is told about the request. */
  ghost predicate Describes(cfg: Config, hash: string -> Digest, ds: seq<Declaration>) {
    && (forall n :: n in cfg.custom <==> n != "" && NamesCustom(ds, n))
    && (cfg.search <==> Search in ds)
    && cfg.namespaces == NamesToRestore(hash, ds)
  }

  lemma CustomIsNamed(ds: seq<Declaration>, n: string)
    requires NamesCustom(ds, n)
    ensures Names(ds, n)
  {
  }

  /** A namespaced tool comes back as it went: its flat name fits, is nobody else's,
      stands for exactly this namespace and name, and a call restored from it
      flattens to the same name when it reappears in the history. */
  lemma NamespacedComesBack(cfg: Config, hash: string -> Digest, ds: seq<Declaration>, d: Declaration)
    requires Unambiguous(hash, ds) && Describes(cfg, hash, ds) && d in ds && d.Child?
    ensures var flat := FlatOf(hash, d);
            var kind := KindOf(cfg, flat);
            && ByteLen(flat) <= MAX_NAME && !Names(ds, flat) && flat != TOOL_SEARCH
            && kind == NamespacedCall(d.namespace, d.tool.name)
            && FlatName(hash, kind.namespace, kind.name) == flat
  {
    hide ByteLen, FlatName, Names, NamesCustom;
    var flat := FlatOf(hash, d);
    FlatNameFits(hash, d.namespace, d.tool.name);
    RestoreKeys(hash, ds, flat);
    var m := NamesToRestore(hash, ds);
    assert flat in m;
    var i :| 0 <= i < |ds| && ds[i].Child? && ds[i].namespace == m[flat].0 && ds[i].tool.name == m[flat].1;
    assert ds[i] in ds && FlatOf(hash, ds[i]) == flat;
    assert SameChild(ds[i], d);
    if flat in cfg.custom {
      CustomIsNamed(ds, flat);
    }
  }

  /** A top-level tool comes back under its own name as a custom or plain call, and
      tool_search as a search. */
  lemma TopLevelComesBack(cfg: Config, hash: string -> Digest, ds: seq<Declaration>, n: string)
    requires Unambiguous(hash, ds) && Describes(cfg, hash, ds)
    ensures Names(ds, n) && n != "" ==> KindOf(cfg, n) == if NamesCustom(ds, n) then CustomCall else PlainCall
    ensures Search in ds ==> KindOf(cfg, TOOL_SEARCH) == SearchCall
  {
    hide FlatName, Names, NamesCustom;
    RestoreKeys(hash, ds, n);
    if TOOL_SEARCH in cfg.custom {
      CustomIsNamed(ds, TOOL_SEARCH);
    }
  }

  /** Flat names are not injective: without the check two tools would be confused. */
  lemma FlatNamesCollide(hash: string -> Digest, a: ChatTool, b: ChatTool)
    requires a.name == "c" && b.name == "b__c"
    ensures FlatName(hash, "a__b", "c") == FlatName(hash, "a", "b__c")
    ensures !Unambiguous(hash, [Child("a__b", a), Child("a", b)])
  {
    assert "a__b" + SEPARATOR + "c" == "a" + SEPARATOR + "b__c";
    hide ByteLen, Fitting;
    assert FlatName(hash, "a__b", "c") == FlatName(hash, "a", "b__c");
    hide FlatName;
    var ds := [Child("a__b", a), Child("a", b)];
    assert ds[0] in ds && ds[1] in ds;
    assert !SameChild(ds[0], ds[1]);
  }
}
