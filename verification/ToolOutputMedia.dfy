/** Images inside tool outputs: a JSON tree is searched for image nodes, each is
    replaced by a marker, and their addresses are collected in order. */
module ToolOutputMedia {
  import opened Common
  import opened ChatChunks

  /** A decoded JSON value; numbers, booleans and null are kept as their text. */
  datatype Json = Str(s: string) | Arr(items: seq<Json>) | Obj(fields: map<string, Json>) | Other(text: string)

  const MARKER := "[" + "Tool output media moved to the following user message]"
  const MARKER_NODE := Obj(map["type" := Str("input_text"), "text" := Str(MARKER)])

  function StringAt(fields: map<string, Json>, key: string): string {
    if key in fields && fields[key].Str? then fields[key].s else ""
  }

  /** recognizedToolOutputImageURL */
  function ImageUrl(fields: map<string, Json>): (url: Option<string>)
    ensures url.Some? ==> !IsBlank(url.value) && StringAt(fields, "type") in {"input_image", "image_url"}
  {
    if StringAt(fields, "type") !in {"input_image", "image_url"} || "image_url" !in fields then None
    else match fields["image_url"]
      case Str(s) => if IsBlank(s) then None else Some(s)
      case Obj(inner) => if IsBlank(StringAt(inner, "url")) then None else Some(StringAt(inner, "url"))
      case _ => None
  }

  /** The addresses of the images in a tree, in order. */
  function MediaOf(v: Json): seq<string> {
    match v
    case Arr(items) => MediaIn(items)
    case Obj(fields) =>
      if ImageUrl(fields).Some? then [ImageUrl(fields).value]
      else if "content" in fields then MediaOf(fields["content"])
      else []
    case _ => []
  }

  function MediaIn(items: seq<Json>): seq<string> {
    if items == [] then [] else MediaIn(items[..|items| - 1]) + MediaOf(items[|items| - 1])
  }

  /** The tree with its images replaced. */
  function Replaced(v: Json): Json {
    match v
    case Arr(items) => Arr(ReplacedIn(items))
    case Obj(fields) =>
      if ImageUrl(fields).Some? then MARKER_NODE
      else if "content" in fields then Obj(fields["content" := Replaced(fields["content"])])
      else v
    case _ => v
  }

  function ReplacedIn(items: seq<Json>): (r: seq<Json>)
    ensures |r| == |items|
    ensures forall i | 0 <= i < |items| :: r[i] == Replaced(items[i])
  {
    if items == [] then [] else ReplacedIn(items[..|items| - 1]) + [Replaced(items[|items| - 1])]
  }

  /** rewriteToolOutputMediaValue */
  method Rewrite(value: Json) returns (rewritten: Json, media: seq<string>, changed: bool)
    ensures rewritten == Replaced(value) && media == MediaOf(value) && changed == (media != [])
    decreases value
  {
    match value
    case Arr(items) =>
      var typed := items;
      media, changed := [], false;
      for i := 0 to |items|
        invariant |typed| == |items|
        invariant forall k | 0 <= k < i :: typed[k] == Replaced(items[k])
        invariant forall k | i <= k < |items| :: typed[k] == items[k]
        invariant media == MediaIn(items[..i]) && changed == (media != [])
      {
        var item, itemMedia, itemChanged := Rewrite(items[i]);
        assert items[..i + 1][..i] == items[..i];
        if !itemChanged {
          UntouchedWithoutMedia(items[i]);
          continue;
        }
        typed := typed[i := item];
        media := media + itemMedia;
        changed := true;
      }
      assert items[..|items|] == items;
      assert typed == ReplacedIn(items);
      rewritten := Arr(typed);
    case Obj(fields) =>
      var url := ImageUrl(fields);
      if url.Some? {
        return MARKER_NODE, [url.value], true;
      }
      if "content" !in fields {
        return value, [], false;
      }
      var content, found, rewrote := Rewrite(fields["content"]);
      if !rewrote {
        UntouchedWithoutMedia(value);
        return value, [], false;
      }
      return Obj(fields["content" := content]), found, true;
    case _ =>
      return value, [], false;
  }

  /** A node is an image when its type says so and it has an address that is not
      blank, either as a string or under "url". */
  lemma ImageUrlTells(fields: map<string, Json>, url: string)
    ensures ImageUrl(fields) == Some(url)
            <==> !IsBlank(url) && "type" in fields && fields["type"] in {Str("input_image"), Str("image_url")} &&
                 "image_url" in fields &&
                 (fields["image_url"] == Str(url) ||
                  (fields["image_url"].Obj? && "url" in fields["image_url"].fields &&
                   fields["image_url"].fields["url"] == Str(url)))
  {
    assert IsBlank("");
  }

  /** The marker is no image itself, and nothing is found below it. */
  lemma MarkerIsNoImage()
    ensures MediaOf(MARKER_NODE) == []
    ensures MARKER_NODE == Obj(map["type" := Str("input_text"),
                                   "text" := Str("[" + "Tool output media moved to the following user message]")])
  {
  }

  lemma {:induction false} NoMediaIn(items: seq<Json>)
    ensures MediaIn(items) == [] <==> forall i | 0 <= i < |items| :: MediaOf(items[i]) == []
  {
    if items != [] {
      NoMediaIn(items[..|items| - 1]);
    }
  }

  /** A tree without images is returned as it is, and one with images is not. */
  lemma {:induction false} UntouchedWithoutMedia(v: Json)
    ensures Replaced(v) == v <==> MediaOf(v) == []
    decreases v
  {
    match v
    case Arr(items) =>
      NoMediaIn(items);
      forall i | 0 <= i < |items| ensures Replaced(items[i]) == items[i] <==> MediaOf(items[i]) == [] {
        UntouchedWithoutMedia(items[i]);
      }
      var r := ReplacedIn(items);
      if MediaOf(v) == [] {
        assert r == items;
      } else {
        var i :| 0 <= i < |items| && MediaOf(items[i]) != [];
        assert r[i] != items[i];
      }
    case Obj(fields) =>
      if ImageUrl(fields).Some? {
        assert MARKER_NODE.fields["type"] != fields["type"];
      } else if "content" in fields {
        UntouchedWithoutMedia(fields["content"]);
        assert fields["content" := fields["content"]] == fields;
      }
    case _ =>
  }

  /** Rewriting a rewritten tree finds nothing. */
  lemma {:induction false} NothingLeft(v: Json)
    ensures MediaOf(Replaced(v)) == []
    decreases v
  {
    match v
    case Arr(items) =>
      var r := ReplacedIn(items);
      NoMediaIn(r);
      forall i | 0 <= i < |r| ensures MediaOf(r[i]) == [] {
        NothingLeft(items[i]);
      }
    case Obj(fields) =>
      if ImageUrl(fields).Some? {
        MarkerIsNoImage();
      } else if "content" in fields {
        NothingLeft(fields["content"]);
        StillNoImage(fields);
      }
    case _ =>
  }

  /** Rewriting the content of an object does not make it an image. */
  lemma StillNoImage(fields: map<string, Json>)
    requires ImageUrl(fields).None? && "content" in fields
    ensures ImageUrl(fields["content" := Replaced(fields["content"])]).None?
  {
  }

  // ----- Where the images are -----

  datatype Step = Item(i: nat) | Content

  /** The node at a position the search reaches: into the items of an array and the
      content of an object that is no image. */
  function Reach(v: Json, p: seq<Step>): Option<Json> {
    if p == [] then Some(v)
    else match v
      case Arr(items) =>
        if p[0].Item? && p[0].i < |items| then Reach(items[p[0].i], p[1..]) else None
      case Obj(fields) =>
        if p[0].Content? && ImageUrl(fields).None? && "content" in fields then Reach(fields["content"], p[1..]) else None
      case _ => None
  }

  function ImageAt(v: Json, p: seq<Step>): Option<string> {
    var node := Reach(v, p);
    if node.Some? && node.value.Obj? then ImageUrl(node.value.fields) else None
  }

  /** Document order of positions. */
  predicate Before(p: seq<Step>, q: seq<Step>) {
    q != [] &&
    (p == [] ||
     (p[0].Item? && q[0].Item? && p[0].i < q[0].i) ||
     (p[0] == q[0] && Before(p[1..], q[1..])))
  }

  function Under(step: Step, ps: seq<seq<Step>>): (r: seq<seq<Step>>)
    ensures |r| == |ps| && forall i | 0 <= i < |ps| :: r[i] == [step] + ps[i]
  {
    seq(|ps|, i requires 0 <= i < |ps| => [step] + ps[i])
  }

  /** The positions of the images, in order. */
  function PathsOf(v: Json): seq<seq<Step>> {
    match v
    case Arr(items) => PathsIn(items)
    case Obj(fields) =>
      if ImageUrl(fields).Some? then [[]]
      else if "content" in fields then Under(Content, PathsOf(fields["content"]))
      else []
    case _ => []
  }

  function PathsIn(items: seq<Json>): seq<seq<Step>> {
    if items == [] then []
    else PathsIn(items[..|items| - 1]) + Under(Item(|items| - 1), PathsOf(items[|items| - 1]))
  }

  /** `ps` are the positions of all images of `v`, in document order, and `urls`
      their addresses. */
  ghost predicate Lists(v: Json, ps: seq<seq<Step>>, urls: seq<string>) {
    AllFound(v, ps, urls) && NoneMissed(v, ps) && InOrder(ps)
  }

  predicate AllFound(v: Json, ps: seq<seq<Step>>, urls: seq<string>) {
    |ps| == |urls| && forall i | 0 <= i < |ps| :: ImageAt(v, ps[i]) == Some(urls[i])
  }

  ghost predicate NoneMissed(v: Json, ps: seq<seq<Step>>) {
    forall p | ImageAt(v, p).Some? :: p in ps
  }

  predicate InOrder(ps: seq<seq<Step>>) {
    forall i, j | 0 <= i < j < |ps| :: Before(ps[i], ps[j])
  }

  lemma {:induction false} ListsItems(items: seq<Json>)
    requires forall k | 0 <= k < |items| :: Lists(items[k], PathsOf(items[k]), MediaOf(items[k]))
    ensures Lists(Arr(items), PathsIn(items), MediaIn(items))
    ensures StartBelow(PathsIn(items), |items|)
  {
    if items == [] {
    } else {
      var before, n := items[..|items| - 1], |items| - 1;
      ListsItems(before);
      ListsSnoc(before, items[n]);
      assert before + [items[n]] == items;
    }
  }

  lemma ReachSnoc(before: seq<Json>, item: Json, p: seq<Step>)
    ensures ImageAt(Arr(before + [item]), p)
            == if p != [] && p[0] == Item(|before|) then ImageAt(item, p[1..]) else ImageAt(Arr(before), p)
  {
  }

  predicate StartBelow(ps: seq<seq<Step>>, n: nat) {
    forall p: seq<Step> | p in ps :: p != [] && p[0].Item? && p[0].i < n
  }

  lemma OrderSnoc(ps: seq<seq<Step>>, own: seq<seq<Step>>, n: nat)
    requires InOrder(ps) && InOrder(own) && StartBelow(ps, n)
    ensures InOrder(ps + Under(Item(n), own)) && StartBelow(ps + Under(Item(n), own), n + 1)
  {
    var new_ := Under(Item(n), own);
    var all := ps + new_;
    forall i, j | 0 <= i < j < |all| ensures Before(all[i], all[j]) {
      if i < |ps| {
        assert ps[i] in ps;
      } else {
        UnderBefore(Item(n), own[i - |ps|], own[j - |ps|]);
      }
    }
  }

  lemma AllFoundSnoc(before: seq<Json>, item: Json, ps: seq<seq<Step>>, urls: seq<string>,
                     own: seq<seq<Step>>, ownUrls: seq<string>)
    requires AllFound(Arr(before), ps, urls) && AllFound(item, own, ownUrls) && StartBelow(ps, |before|)
    ensures AllFound(Arr(before + [item]), ps + Under(Item(|before|), own), urls + ownUrls)
  {
    hide ImageAt;
    var all := ps + Under(Item(|before|), own);
    forall i | 0 <= i < |all| ensures ImageAt(Arr(before + [item]), all[i]) == Some((urls + ownUrls)[i]) {
      ReachSnoc(before, item, all[i]);
      if i < |ps| {
        assert ps[i] in ps;
      } else {
        assert all[i][1..] == own[i - |ps|];
      }
    }
  }

  lemma NoneMissedSnoc(before: seq<Json>, item: Json, ps: seq<seq<Step>>, own: seq<seq<Step>>)
    requires NoneMissed(Arr(before), ps) && NoneMissed(item, own)
    ensures NoneMissed(Arr(before + [item]), ps + Under(Item(|before|), own))
  {
    hide ImageAt;
    var new_ := Under(Item(|before|), own);
    forall p | ImageAt(Arr(before + [item]), p).Some? ensures p in ps + new_ {
      ReachSnoc(before, item, p);
      if p != [] && p[0] == Item(|before|) {
        var i :| 0 <= i < |own| && own[i] == p[1..];
        assert new_[i] == p;
      }
    }
  }

  lemma ListsSnoc(before: seq<Json>, item: Json)
    requires Lists(Arr(before), PathsIn(before), MediaIn(before)) && Lists(item, PathsOf(item), MediaOf(item))
    requires StartBelow(PathsIn(before), |before|)
    ensures Lists(Arr(before + [item]), PathsIn(before) + Under(Item(|before|), PathsOf(item)), MediaIn(before) + MediaOf(item))
    ensures StartBelow(PathsIn(before) + Under(Item(|before|), PathsOf(item)), |before| + 1)
  {
    hide PathsOf, MediaOf, MediaIn, PathsIn, AllFound, NoneMissed, InOrder, StartBelow;
    AllFoundSnoc(before, item, PathsIn(before), MediaIn(before), PathsOf(item), MediaOf(item));
    NoneMissedSnoc(before, item, PathsIn(before), PathsOf(item));
    OrderSnoc(PathsIn(before), PathsOf(item), |before|);
  }

  lemma UnderBefore(step: Step, p: seq<Step>, q: seq<Step>)
    requires Before(p, q)
    ensures Before([step] + p, [step] + q)
  {
    assert ([step] + p)[1..] == p && ([step] + q)[1..] == q;
  }

  lemma ListsContent(fields: map<string, Json>)
    requires ImageUrl(fields).None? && "content" in fields
    requires Lists(fields["content"], PathsOf(fields["content"]), MediaOf(fields["content"]))
    ensures Lists(Obj(fields), Under(Content, PathsOf(fields["content"])), MediaOf(fields["content"]))
  {
    hide PathsOf, MediaOf;
    var ps := PathsOf(fields["content"]);
    var qs := Under(Content, ps);
    forall p ensures ImageAt(Obj(fields), p)
                     == if p != [] && p[0] == Content then ImageAt(fields["content"], p[1..]) else None
    {
    }
    forall i | 0 <= i < |qs| ensures ImageAt(Obj(fields), qs[i]) == ImageAt(fields["content"], ps[i]) {
      assert qs[i][1..] == ps[i];
    }
    forall p | ImageAt(Obj(fields), p).Some? ensures p in qs {
      var i :| 0 <= i < |ps| && ps[i] == p[1..];
      assert qs[i] == p;
    }
    forall i, j | 0 <= i < j < |qs| ensures Before(qs[i], qs[j]) {
      UnderBefore(Content, ps[i], ps[j]);
    }
  }

  /** The collected addresses are those of the images at all reachable positions, in
      document order, each once. */
  lemma {:induction false} MediaInOrder(v: Json)
    ensures Lists(v, PathsOf(v), MediaOf(v))
    decreases v
  {
    match v
    case Arr(items) =>
      forall k | 0 <= k < |items| ensures Lists(items[k], PathsOf(items[k]), MediaOf(items[k])) {
        MediaInOrder(items[k]);
      }
      ListsItems(items);
    case Obj(fields) =>
      if ImageUrl(fields).Some? {
        assert Reach(v, []) == Some(v);
      } else if "content" in fields {
        MediaInOrder(fields["content"]);
        ListsContent(fields);
      }
    case _ =>
  }

  /** What is found at a reachable position after the rewrite: the marker where an
      image was, and the very same value where there is no image below. */
  lemma {:induction false} RestUntouched(v: Json, p: seq<Step>)
    requires Reach(v, p).Some?
    ensures ImageAt(v, p).Some? ==> Reach(Replaced(v), p) == Some(MARKER_NODE)
    ensures MediaOf(Reach(v, p).value) == [] ==> Reach(Replaced(v), p) == Reach(v, p)
    decreases p
  {
    if p == [] {
      UntouchedWithoutMedia(v);
    } else {
      match v
      case Arr(items) => RestUntouched(items[p[0].i], p[1..]);
      case Obj(fields) =>
        StillNoImage(fields);
        RestUntouched(fields["content"], p[1..]);
    }
  }

  /** On the way to an image nothing else changes: an array keeps its length, an object
      its keys and every field but its content. */
  lemma {:induction false} SurroundingsKept(v: Json, p: seq<Step>)
    requires Reach(v, p).Some? && ImageAt(v, p).None?
    ensures Reach(Replaced(v), p).Some?
    ensures var a, b := Reach(v, p).value, Reach(Replaced(v), p).value;
            match a
            case Arr(items) => b.Arr? && |b.items| == |items|
            case Obj(fields) =>
              b.Obj? && b.fields.Keys == fields.Keys && forall key | key in fields && key != "content" :: b.fields[key] == fields[key]
            case _ => b == a
    decreases p
  {
    if p != [] {
      match v
      case Arr(items) => SurroundingsKept(items[p[0].i], p[1..]);
      case Obj(fields) =>
        StillNoImage(fields);
        SurroundingsKept(fields["content"], p[1..]);
    }
  }

  // ----- Whole tool outputs -----

  const DATA_PREFIX := "data:image/"
  const BASE64 := ";base64,"

  /** strings.Index */
  function IndexOf(s: string, sep: string): (r: Option<nat>)
    ensures r.Some? ==> r.value <= |s| && sep <= s[r.value..] && forall i | 0 <= i < r.value :: !(sep <= s[i..])
    ensures r.None? ==> forall i | 0 <= i <= |s| :: !(sep <= s[i..])
  {
    assert s[0..] == s;
    if sep <= s then Some(0)
    else if s == "" then None
    else
      var r := IndexOf(s[1..], sep);
      assert forall i | 1 <= i <= |s| :: s[i..] == s[1..][i - 1..];
      if r.Some? then Some(r.value + 1) else None
  }

  /** isToolOutputImageDataURL */
  predicate IsDataUrl(s: string) {
    DATA_PREFIX <= s &&
    var rest := s[|DATA_PREFIX|..];
    var at := IndexOf(rest, BASE64);
    at.Some? && at.value > 0 && |DATA_PREFIX| + at.value + |BASE64| < |s|
  }

  lemma DataUrlSplits(s: string) returns (kind: string, data: string)
    requires IsDataUrl(s)
    ensures kind != "" && data != "" && s == "data:image/" + (kind + (";base64," + data))
    ensures !(";base64," <= kind + (";base64," + data))
  {
    hide IsDataUrl, IndexOf;
    assert DATA_PREFIX <= s by { DataUrlParts(s); }
    var rest := s[|DATA_PREFIX|..];
    DataUrlParts(s);
    var n := IndexOf(rest, BASE64).value;
    kind, data := rest[..n], rest[n + |BASE64|..];
    assert rest[n..] == BASE64 + data;
    assert rest == kind + (BASE64 + data) && rest[0..] == rest;
    assert s == DATA_PREFIX + rest;
  }

  lemma DataUrlParts(s: string)
    ensures IsDataUrl(s)
            <==> DATA_PREFIX <= s &&
                 var at := IndexOf(s[|DATA_PREFIX|..], BASE64);
                 at.Some? && at.value > 0 && |DATA_PREFIX| + at.value + |BASE64| < |s|
  {
  }

  lemma SplitIsDataUrl(s: string, kind: string, data: string)
    requires kind != "" && data != "" && s == "data:image/" + (kind + (";base64," + data))
    requires !(";base64," <= kind + (";base64," + data))
    ensures IsDataUrl(s)
  {
    hide IsDataUrl, IndexOf;
    var rest := kind + (BASE64 + data);
    assert s[|DATA_PREFIX|..] == rest;
    assert rest[|kind|..] == BASE64 + data && rest[0..] == rest;
    assert BASE64 <= rest[|kind|..];
    var at := IndexOf(rest, BASE64);
    assert at.Some? && at.value <= |kind|;
    DataUrlParts(s);
  }

  /** A data URL holds an image exactly when it has a type and data around the first
      ";base64,". */
  lemma DataUrlsAre(s: string)
    ensures IsDataUrl(s)
            <==> exists kind: string, data: string ::
                   kind != "" && data != "" && s == "data:image/" + (kind + (";base64," + data)) &&
                   !(";base64," <= kind + (";base64," + data))
  {
    hide IsDataUrl;
    if IsDataUrl(s) {
      var kind, data := DataUrlSplits(s);
    }
    if kind: string, data: string :|
      kind != "" && data != "" && s == "data:image/" + (kind + (";base64," + data)) && !(";base64," <= kind + (";base64," + data))
    {
      SplitIsDataUrl(s, kind, data);
    }
  }

  /** A value that some text decodes to. */
  ghost predicate Readable(decode: string -> Option<Json>, v: Json) {
    exists s :: decode(s) == Some(v)
  }

  /** What is known about JSON text: a value that was read, once its images are
      replaced, is read again as it was written; arrays and objects start with a
      bracket; and the marker is no JSON. */
  ghost predicate Codec(decode: string -> Option<Json>, encode: Json -> string) {
    && (forall v | Readable(decode, v) :: decode(encode(Replaced(v))) == Some(Replaced(v)))
    && (forall v: Json | v.Arr? || v.Obj? :: encode(v) != "" && encode(v)[0] in "[{")
    && decode(MARKER).None?
  }

  /** extractToolOutputMedia: the rewritten output and its images, or nothing when
      the output is to be kept as it is. An output that is missing or null is None. */
  function Extracted(decode: string -> Option<Json>, encode: Json -> string, output: Option<Json>): Option<(string, seq<string>)> {
    match output
    case None => None
    case Some(v) =>
      if v.Str? && IsDataUrl(v.s) then Some((MARKER, [v.s]))
      else
        var tree := if v.Str? then decode(v.s) else Some(v);
        if tree.None? || MediaOf(tree.value) == [] then None
        else Some((encode(Replaced(tree.value)), MediaOf(tree.value)))
  }

  lemma NoPrefix(p: string, s: string)
    requires p != "" && s != "" && p[0] != s[0]
    ensures !(p <= s)
  {
  }

  lemma ReplacedKeepsShape(v: Json)
    requires MediaOf(v) != []
    ensures Replaced(v).Arr? || Replaced(v).Obj?
  {
  }

  /** Media is taken out of an output once: what is sent in its place holds none. */
  lemma ExtractedOnce(decode: string -> Option<Json>, encode: Json -> string, output: Option<Json>)
    requires Codec(decode, encode) && Extracted(decode, encode, output).Some?
    requires output.value.Str? || Readable(decode, output.value)
    ensures Extracted(decode, encode, output).value.1 != []
    ensures Extracted(decode, encode, Some(Str(Extracted(decode, encode, output).value.0))).None?
  {
    hide MediaOf, Replaced;
    var v := output.value;
    if v.Str? && IsDataUrl(v.s) {
      assert MARKER[0] == '[' && DATA_PREFIX[0] == 'd';
      NoPrefix(DATA_PREFIX, MARKER);
    } else {
      var tree := (if v.Str? then decode(v.s) else Some(v)).value;
      NothingLeft(tree);
      ReplacedKeepsShape(tree);
      var sent := encode(Replaced(tree));
      assert Readable(decode, tree);
      assert sent[0] in "[{" && DATA_PREFIX[0] == 'd';
      NoPrefix(DATA_PREFIX, sent);
    }
  }
}
