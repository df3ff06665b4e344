/** The managed block in an agent's instruction file: inserting it, refreshing it, and when doing so twice is safe. */
module MarkerMerge {
  import opened Core

  // ---------- Text ----------

  predicate OccursAt(s: string, sub: string, i: int) {
    0 <= i && i + |sub| <= |s| && s[i..i + |sub|] == sub
  }

  /** The position of the first occurrence, or -1. */
  function Index(s: string, sub: string): (r: int)
    ensures r >= 0 ==> OccursAt(s, sub, r)
    ensures forall i :: OccursAt(s, sub, i) ==> 0 <= r <= i
  {
    IndexFrom(s, sub, 0)
  }

  function IndexFrom(s: string, sub: string, i: nat): (r: int)
    ensures r >= 0 ==> OccursAt(s, sub, r) && i <= r
    ensures forall j :: j >= i && OccursAt(s, sub, j) ==> 0 <= r <= j
    decreases |s| - i
  {
    if OccursAt(s, sub, i) then i
    else if i + |sub| < |s| then IndexFrom(s, sub, i + 1)
    else -1
  }

  function TrimNewlines(s: string): (t: string)
    ensures t <= s
    ensures forall i :: |t| <= i < |s| ==> s[i] == '\n'
    ensures t == "" || t[|t| - 1] != '\n'
  {
    if s != "" && s[|s| - 1] == '\n' then TrimNewlines(s[..|s| - 1]) else s
  }

  // ---------- The block ----------

  function BeginMarker(): string { "<!-- runtimepulse:begin (managed \U{2014} do not edit inside) -->" }

  function EndMarker(): string { "<!-- runtimepulse:end -->" }

  /** The canonical block around a (trimmed) guidance text. */
  function Block(body: string): string { BeginMarker() + "\n" + body + "\n" + EndMarker() }

  /** The guidance text contains no opening angle bracket, so no marker starts inside it. */
  predicate Clean(body: string) { '<' !in body }

  // ---------- The merge ----------

  datatype Action = Written | Updated | Appended | Unchanged | WouldWrite

  datatype Plan = Plan(out: string, action: Action)

  /** What to do with a file's content (`None`: the file does not exist). */
  function Merge(content: Option<string>, body: string): Plan {
    var block := Block(body);
    match content
    case None => Plan(block + "\n", Written)
    case Some(c) =>
      var b, e := Index(c, BeginMarker()), Index(c, EndMarker());
      if b >= 0 && e >= b then
        var rebuilt := c[..b] + block + c[e + |EndMarker()|..];
        Plan(rebuilt, if rebuilt == c then Unchanged else Updated)
      else
        Plan(TrimNewlines(c) + "\n\n" + block + "\n", Appended)
  }

  class Disk {
    var files: map<string, string>

    /** A dry run writes nothing; otherwise exactly this file gets the merged text, if it differs. */
    method MergeMarkerBlock(path: string, body: string, dryRun: bool) returns (action: Action)
      modifies this
      ensures var plan := Merge(if path in old(files) then Some(old(files)[path]) else None, body);
        && action == (if plan.action.Unchanged? then Unchanged else if dryRun then WouldWrite else plan.action)
        && files == (if dryRun then old(files) else old(files)[path := plan.out])
      ensures dryRun ==> files == old(files)
      ensures forall p :: p != path ==> (p in files <==> p in old(files)) && (p in files ==> files[p] == old(files)[p])
      ensures var block := BeginMarker() + "\n" + body + "\n" + EndMarker();
        if path !in old(files) then
          action == (if dryRun then WouldWrite else Written) && (!dryRun ==> files == old(files)[path := block + "\n"])
        else
          var c := old(files)[path];
          var b, e := Index(c, BeginMarker()), Index(c, EndMarker());
          if b >= 0 && e >= b then
            var rebuilt := c[..b] + block + c[e + |EndMarker()|..];
            && action == (if rebuilt == c then Unchanged else if dryRun then WouldWrite else Updated)
            && (!dryRun ==> files == old(files)[path := rebuilt])
          else
            && action == (if dryRun then WouldWrite else Appended)
            && (!dryRun ==> files == old(files)[path := TrimNewlines(c) + "\n\n" + block + "\n"])
    {
      hide BeginMarker, EndMarker, TrimNewlines;
      var block := Block(body);
      var out;
      if path !in files {
        out, action := block + "\n", Written;
      } else {
        var content := files[path];
        var b, e := Index(content, BeginMarker()), Index(content, EndMarker());
        if b >= 0 && e >= b {
          var rebuilt := content[..b] + block + content[e + |EndMarker()|..];
          if rebuilt == content {
            action := Unchanged;
            assert files == files[path := content];
            return;
          }
          out, action := rebuilt, Updated;
        } else {
          out, action := TrimNewlines(content) + "\n\n" + block + "\n", Appended;
        }
      }
      if dryRun {
        return WouldWrite;
      }
      files := files[path := out];
    }
  }

  // ---------- Where markers can be ----------

  lemma MarkerChars()
    ensures |BeginMarker()| == 58 && |EndMarker()| == 25
    ensures forall i :: 0 <= i < 58 ==> (BeginMarker()[i] == '<' <==> i == 0) && BeginMarker()[i] != '\n'
    ensures forall i :: 0 <= i < 25 ==> (EndMarker()[i] == '<' <==> i == 0) && EndMarker()[i] != '\n'
    ensures BeginMarker()[18] == 'b' && EndMarker()[18] == 'e'
  {
    BeginPieces();
    hide BeginMarker;
  }

  lemma BeginPieces()
    ensures BeginMarker() == "<!-- runtimepulse:begin " + "(managed \U{2014} do not " + "edit inside) -->"
  {
  }

  lemma Mismatch(s: string, sub: string, i: nat, k: nat)
    requires k < |sub| && i + k < |s| && s[i + k] != sub[k]
    ensures !OccursAt(s, sub, i)
  {
    if i + |sub| <= |s| {
      assert s[i..i + |sub|][k] == s[i + k];
    }
  }

  /** Angle brackets in the block sit only where its two markers start. */
  lemma BlockBrackets(body: string, i: nat)
    requires Clean(body) && 0 < i < |Block(body)| && i != |Block(body)| - |EndMarker()|
    ensures Block(body)[i] != '<'
  {
    MarkerChars();
    hide BeginMarker, EndMarker;
    var block := Block(body);
    if i < |BeginMarker()| {
      assert block[i] == BeginMarker()[i];
    } else if |BeginMarker()| < i < |BeginMarker()| + 1 + |body| {
      assert block[i] == body[i - |BeginMarker()| - 1];
    } else if i > |block| - |EndMarker()| {
      assert block[i] == EndMarker()[i - (|block| - |EndMarker()|)];
    }
  }

  lemma BlockEnds(body: string)
    ensures |Block(body)| == |BeginMarker()| + |body| + 2 + |EndMarker()|
    ensures Block(body)[..|BeginMarker()|] == BeginMarker()
    ensures Block(body)[|Block(body)| - |EndMarker()|..] == EndMarker()
  {
    hide BeginMarker, EndMarker;
  }

  /** The text around a block: where the block's own markers are found. */
  lemma OwnMarkers(pre: string, body: string, post: string)
    ensures OccursAt(pre + Block(body) + post, BeginMarker(), |pre|)
    ensures OccursAt(pre + Block(body) + post, EndMarker(), |pre| + |Block(body)| - |EndMarker()|)
  {
    BlockEnds(body);
    hide BeginMarker, EndMarker, Block;
    var s, block := pre + Block(body) + post, Block(body);
    assert s[|pre|..|pre| + |BeginMarker()|] == block[..|BeginMarker()|];
    var k := |block| - |EndMarker()|;
    assert s[|pre| + k..|pre| + k + |EndMarker()|] == block[k..];
  }

  /** An end marker starts nowhere else inside the block. */
  lemma NoOtherEnd(pre: string, body: string, post: string, i: int)
    requires Clean(body) && |pre| <= i < |pre| + |Block(body)| - |EndMarker()|
    ensures !OccursAt(pre + Block(body) + post, EndMarker(), i)
  {
    MarkerChars();
    BlockEnds(body);
    hide BeginMarker, EndMarker, Block;
    var s, block := pre + Block(body) + post, Block(body);
    if i == |pre| {
      assert s[i + 18] == block[18] == block[..|BeginMarker()|][18];
      Mismatch(s, EndMarker(), i, 18);
    } else {
      assert s[i] == block[i - |pre|];
      BlockBrackets(body, i - |pre|);
      Mismatch(s, EndMarker(), i, 0);
    }
  }

  /** If no marker starts before the block, the block's markers are the first ones, and merging changes nothing. */
  lemma CanonicalIsStable(pre: string, body: string, post: string)
    requires Clean(body)
    requires var s := pre + Block(body) + post;
      forall i :: 0 <= i < |pre| ==> !OccursAt(s, BeginMarker(), i) && !OccursAt(s, EndMarker(), i)
    ensures var s := pre + Block(body) + post;
      && Index(s, BeginMarker()) == |pre|
      && Index(s, EndMarker()) == |pre| + |Block(body)| - |EndMarker()|
      && Merge(Some(s), body) == Plan(s, Unchanged)
  {
    OwnMarkers(pre, body, post);
    BlockEnds(body);
    var s, block := pre + Block(body) + post, Block(body);
    forall i | |pre| <= i < |pre| + |block| - |EndMarker()| ensures !OccursAt(s, EndMarker(), i) {
      NoOtherEnd(pre, body, post, i);
    }
    hide BeginMarker, EndMarker, Block, OccursAt;
    assert s[..|pre|] == pre && s[|pre| + |block|..] == post;
  }

  // ---------- Refreshing an existing block ----------

  /** An occurrence that ends inside a common prefix of two texts occurs in both. */
  lemma OccursInPrefix(s: string, t: string, n: nat, sub: string, i: int)
    requires n <= |s| && n <= |t| && s[..n] == t[..n] && i + |sub| <= n
    ensures OccursAt(s, sub, i) ==> OccursAt(t, sub, i)
  {
    if 0 <= i {
      assert s[..n][i..i + |sub|] == s[i..i + |sub|];
      assert t[..n][i..i + |sub|] == t[i..i + |sub|];
    }
  }

  predicate HasBlock(c: string) {
    0 <= Index(c, BeginMarker()) <= Index(c, EndMarker())
  }

  /** Up to the end of its begin marker, the refreshed text is the old text. */
  lemma RefreshKeepsPrefix(c: string, b: nat, block: string, post: string)
    requires OccursAt(c, BeginMarker(), b) && |block| >= |BeginMarker()| && block[..|BeginMarker()|] == BeginMarker()
    ensures var n := b + |BeginMarker()|;
      n <= |c[..b] + block + post| && (c[..b] + block + post)[..n] == c[..n]
  {
    hide BeginMarker;
    var s, n := c[..b] + block + post, b + |BeginMarker()|;
    assert s[..n] == c[..b] + block[..|BeginMarker()|];
    assert c[..n] == c[..b] + c[b..n];
  }

  lemma RefreshIsStable(c: string, body: string)
    requires HasBlock(c) && Clean(body)
    ensures var out := Merge(Some(c), body).out; Merge(Some(out), body) == Plan(out, Unchanged)
  {
    MarkerChars();
    BlockEnds(body);
    var b, e := Index(c, BeginMarker()), Index(c, EndMarker());
    assert b + |BeginMarker()| <= |c| && e + |EndMarker()| <= |c|;
    hide BeginMarker, EndMarker, Block, OccursAt;
    var post := c[e + |EndMarker()|..];
    var s, n := c[..b] + Block(body) + post, b + |BeginMarker()|;
    RefreshKeepsPrefix(c, b, Block(body), post);
    forall i | 0 <= i < b ensures !OccursAt(s, BeginMarker(), i) && !OccursAt(s, EndMarker(), i) {
      OccursInPrefix(s, c, n, BeginMarker(), i);
      OccursInPrefix(s, c, n, EndMarker(), i);
    }
    CanonicalIsStable(c[..b], body, post);
  }

  // ---------- Appending a block ----------

  function Appending(c: string): string { TrimNewlines(c) + "\n\n" }

  lemma NoNewlineInside(s: string, sub: string, i: int, p: nat)
    requires '\n' !in sub && i <= p < i + |sub| && p < |s| && s[p] == '\n'
    ensures !OccursAt(s, sub, i)
  {
    if 0 <= i { Mismatch(s, sub, i, p - i); }
  }

  /** Before the appended block, markers are found exactly where the old content has them. */
  lemma MarkersBefore(c: string, block: string, m: string, i: int)
    requires m != "" && '\n' !in m && i < |Appending(c)|
    ensures OccursAt(Appending(c) + block + "\n", m, i) <==> OccursAt(c, m, i)
  {
    var t, s := TrimNewlines(c), Appending(c) + block + "\n";
    if 0 <= i {
      if i + |m| <= |t| {
        assert s[..|t|] == t == c[..|t|];
        OccursInPrefix(s, c, |t|, m, i);
        OccursInPrefix(c, s, |t|, m, i);
      } else {
        var p := if i <= |t| then |t| else i;
        assert s[p] == '\n';
        NoNewlineInside(s, m, i, p);
        if i + |m| <= |c| { NoNewlineInside(c, m, i, p); }
      }
    }
  }

  /** No occurrence in the content starts at or after its trailing newlines. */
  lemma MarkersEndBeforeTrim(c: string, m: string, i: int)
    requires m != "" && '\n' !in m && OccursAt(c, m, i)
    ensures i + |m| <= |TrimNewlines(c)|
  {
    if i + |m| > |TrimNewlines(c)| {
      NoNewlineInside(c, m, i, i + |m| - 1);
    }
  }

  lemma AppendIsStable(c: string, body: string)
    requires Index(c, BeginMarker()) < 0 && Index(c, EndMarker()) < 0 && Clean(body)
    ensures var out := Merge(Some(c), body).out; Merge(Some(out), body) == Plan(out, Unchanged)
  {
    MarkerChars();
    hide BeginMarker, EndMarker, Block;
    forall i | 0 <= i < |Appending(c)|
      ensures !OccursAt(Appending(c) + Block(body) + "\n", BeginMarker(), i)
      ensures !OccursAt(Appending(c) + Block(body) + "\n", EndMarker(), i)
    {
      MarkersBefore(c, Block(body), BeginMarker(), i);
      MarkersBefore(c, Block(body), EndMarker(), i);
    }
    CanonicalIsStable(Appending(c), body, "\n");
  }

  // ---------- When merging twice is merging once ----------

  /** Neither marker, or the first begin marker at or before the first end marker. */
  predicate WellMarked(c: string) {
    HasBlock(c) || (Index(c, BeginMarker()) < 0 && Index(c, EndMarker()) < 0)
  }

  lemma SameIndex(c: string, block: string, m: string)
    requires m != "" && '\n' !in m && Index(c, m) >= 0
    ensures Index(Appending(c) + block + "\n", m) == Index(c, m)
    ensures Index(c, m) + |m| <= |TrimNewlines(c)|
  {
    var s, k := Appending(c) + block + "\n", Index(c, m);
    MarkersEndBeforeTrim(c, m, k);
    MarkersBefore(c, block, m, k);
    MarkersBefore(c, block, m, Index(s, m));
  }

  lemma NewIndex(c: string, body: string)
    requires Index(c, EndMarker()) < 0 && Clean(body)
    ensures Index(Appending(c) + Block(body) + "\n", EndMarker()) == |Appending(c)| + |Block(body)| - |EndMarker()|
  {
    var pre, s := Appending(c), Appending(c) + Block(body) + "\n";
    MarkerChars();
    OwnMarkers(pre, body, "\n");
    BlockEnds(body);
    var k := Index(s, EndMarker());
    if 0 <= k < |pre| {
      MarkersBefore(c, Block(body), EndMarker(), k);
    } else if |pre| <= k < |pre| + |Block(body)| - |EndMarker()| {
      NoOtherEnd(pre, body, "\n", k);
    }
  }

  /** An end marker without, or before, the begin marker: every merge appends yet another block. */
  lemma StrayEndAppendsAgain(c: string, body: string)
    requires 0 <= Index(c, EndMarker()) && !HasBlock(c) && Clean(body)
    ensures var out := Merge(Some(c), body).out;
      Merge(Some(out), body).action == Appended && |Merge(Some(out), body).out| > |out|
  {
    MarkerChars();
    BlockEnds(body);
    OwnMarkers(Appending(c), body, "\n");
    hide BeginMarker, EndMarker, Block;
    var out, b := Appending(c) + Block(body) + "\n", Index(c, BeginMarker());
    SameIndex(c, Block(body), EndMarker());
    if b >= 0 {
      SameIndex(c, Block(body), BeginMarker());
    } else {
      var k := Index(out, BeginMarker());
      if 0 <= k < |Appending(c)| { MarkersBefore(c, Block(body), BeginMarker(), k); }
    }
    var last := |Appending(c)| + |Block(body)| - 1;
    assert out[last] == Block(body)[|Block(body)| - 1] == EndMarker()[24];
    assert |TrimNewlines(out)| > last;
  }

  /** A begin marker that is never closed: the second merge deletes everything from it on. */
  lemma UnclosedBeginLosesText(c: string, body: string)
    requires Index(c, BeginMarker()) >= 0 && Index(c, EndMarker()) < 0 && Clean(body)
    ensures var out := Merge(Some(c), body).out;
      && Merge(Some(out), body) == Plan(c[..Index(c, BeginMarker())] + Block(body) + "\n", Updated)
      && |Merge(Some(out), body).out| < |out|
  {
    MarkerChars();
    BlockEnds(body);
    NewIndex(c, body);
    hide BeginMarker, EndMarker, Block;
    SameIndex(c, Block(body), BeginMarker());
    var out, b := Appending(c) + Block(body) + "\n", Index(c, BeginMarker());
    assert out[..b] == c[..b];
    assert out[|Appending(c)| + |Block(body)|..] == "\n";
  }

  /**
   Merging a second time changes nothing exactly when the file was well marked; then it is also
   reported as unchanged.
   */
  lemma IdempotentIffWellMarked(c: string, body: string)
    requires Clean(body)
    ensures var once := Merge(Some(c), body).out;
      && (Merge(Some(once), body).out == once <==> WellMarked(c))
      && (WellMarked(c) ==> Merge(Some(once), body).action == Unchanged)
  {
    hide BeginMarker, EndMarker, Block, Merge;
    if HasBlock(c) {
      RefreshIsStable(c, body);
    } else if Index(c, EndMarker()) >= 0 {
      StrayEndAppendsAgain(c, body);
    } else if Index(c, BeginMarker()) >= 0 {
      UnclosedBeginLosesText(c, body);
    } else {
      AppendIsStable(c, body);
    }
  }

  /** A file created from nothing is left alone by the next merge. */
  lemma NewFileIsStable(body: string)
    requires Clean(body)
    ensures var out := Merge(None, body).out; Merge(Some(out), body) == Plan(out, Unchanged)
  {
    CanonicalIsStable("", body, "\n");
    assert "" + Block(body) + "\n" == Block(body) + "\n";
  }

  /**
   The user's text survives: a refresh keeps what is before and after the old block, an append
   keeps everything up to trailing newlines, and in a well marked file the markers found next
   delimit exactly the canonical block.
   */
  lemma KeepsOutsideText(c: string, body: string)
    requires Clean(body)
    ensures var out := Merge(Some(c), body).out;
      if HasBlock(c) then
        out == c[..Index(c, BeginMarker())] + (BeginMarker() + "\n" + body + "\n" + EndMarker())
               + c[Index(c, EndMarker()) + |EndMarker()|..]
      else
        && out == TrimNewlines(c) + "\n\n" + (BeginMarker() + "\n" + body + "\n" + EndMarker()) + "\n"
        && TrimNewlines(c) <= c && forall i :: |TrimNewlines(c)| <= i < |c| ==> c[i] == '\n'
    ensures var out := Merge(Some(c), body).out;
      WellMarked(c) ==>
        HasBlock(out) && out[Index(out, BeginMarker())..Index(out, EndMarker()) + |EndMarker()|] == Block(body)
  {
    var out := Merge(Some(c), body).out;
    if WellMarked(c) {
      IdempotentIffWellMarked(c, body);
      StableMeansCanonical(out, body);
    }
  }

  lemma StableMeansCanonical(s: string, body: string)
    requires Merge(Some(s), body) == Plan(s, Unchanged)
    ensures HasBlock(s) && s[Index(s, BeginMarker())..Index(s, EndMarker()) + |EndMarker()|] == Block(body)
  {
    hide BeginMarker, EndMarker, Block;
    var b, e := Index(s, BeginMarker()), Index(s, EndMarker());
    var block, post := Block(body), s[e + |EndMarker()|..];
    assert s == s[..b] + block + post;
    assert |s| == b + |block| + |post|;
    assert s[b..b + |block|] == block;
  }
}
