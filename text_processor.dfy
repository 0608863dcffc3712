/**
 * Document loading and chunking.
 *
 * `FileLoader` turns a directory listing into `(display name, content)` documents; `TextChunker`
 * splits each document with an external splitter and tags every piece with its document's name.
 * The file system and the splitter are external: the listing (with each file's read outcome) and
 * the splitter are parameters.
 */
module TextProcessor {
  import opened Wrappers

  const DefaultDirectory := "data"
  const DefaultChunkSize := 1000
  const DefaultChunkOverlap := 100

  datatype ChunkMetadata = ChunkMetadata(filename: string)
  datatype Chunk = Chunk(text: string, metadata: ChunkMetadata)

  /** An element of a documents list: a `(name, content)` pair, or an entry that does not unpack into one. */
  datatype DocumentEntry = Document(name: string, content: string) | Malformed

  /**
   * The text splitter: for a chunk size, an overlap and a text, the pieces it returns, or `None`
   * when it raises.
   */
  type Splitter = (int, int, string) -> Option<seq<string>>

  /**
   * The splitter's constructor: for a chunk size and an overlap, the message of the `ValueError`
   * it raises, or `None` when it accepts them.
   */
  type SplitterCheck = (int, int) -> Option<string>

  datatype ChunkerError = ValueError(message: string)

  /** One file met while walking the directory, with the outcome of reading it (`None`: the read raised). */
  datatype FileEntry = FileEntry(name: string, content: Option<string>)

  // ---------------------------------------------------------------------------------------------
  // ASCII character classes and case mappings (the model's stand-in for Python's str methods)

  predicate IsUpper(c: char) { 'A' <= c <= 'Z' }
  predicate IsLower(c: char) { 'a' <= c <= 'z' }
  predicate IsCased(c: char) { IsUpper(c) || IsLower(c) }

  function ToLower(c: char): (d: char)
    ensures IsUpper(c) ==> IsLower(d)
    ensures !IsUpper(c) ==> d == c
  {
    if IsUpper(c) then (c as int - 'A' as int + 'a' as int) as char else c
  }

  function ToUpper(c: char): (d: char)
    ensures IsLower(c) ==> IsUpper(d)
    ensures !IsLower(c) ==> d == c
  {
    if IsLower(c) then (c as int - 'a' as int + 'A' as int) as char else c
  }

  function LowerString(s: string): (r: string)
    ensures |r| == |s|
  {
    if s == [] then [] else [ToLower(s[0])] + LowerString(s[1..])
  }

  /** `fname.lower().endswith('.txt')` */
  predicate HasTxtExtension(name: string) {
    |name| >= 4 && LowerString(name[|name| - 4..]) == ".txt"
  }

  lemma {:induction false} LowerStringAt(s: string)
    ensures forall i :: 0 <= i < |s| ==> LowerString(s)[i] == ToLower(s[i])
  {
    if s != [] {
      LowerStringAt(s[1..]);
      assert forall i :: 1 <= i < |s| ==> LowerString(s)[i] == LowerString(s[1..])[i - 1];
    }
  }

  /**
   * A name passes the `.txt` test exactly when it ends in a dot followed by the letters `t`, `x`,
   * `t` in either case.
   */
  lemma HasTxtExtensionExactly(name: string)
    ensures HasTxtExtension(name) <==>
              |name| >= 4 && name[|name| - 4] == '.' && ToLower(name[|name| - 3]) == 't'
              && ToLower(name[|name| - 2]) == 'x' && ToLower(name[|name| - 1]) == 't'
  {
    if |name| >= 4 {
      var tail := name[|name| - 4..];
      LowerStringAt(tail);
      var lowered := LowerString(tail);
      assert lowered[0] == ToLower(name[|name| - 4]) && lowered[1] == ToLower(name[|name| - 3]);
      assert lowered[2] == ToLower(name[|name| - 2]) && lowered[3] == ToLower(name[|name| - 1]);
      assert ToLower(name[|name| - 4]) == '.' <==> name[|name| - 4] == '.';
      if lowered != ".txt" {
        assert exists k :: 0 <= k < 4 && lowered[k] != ".txt"[k];
      }
    }
  }

  /** Upper-case and mixed-case extensions count; other extensions and bare `txt` do not. */
  lemma TxtExtensionExamples()
    ensures HasTxtExtension("FAQ.TXT") && HasTxtExtension("notes.Txt")
    ensures !HasTxtExtension("notes.md") && !HasTxtExtension("txt")
  {
    HasTxtExtensionExactly("FAQ.TXT");
    HasTxtExtensionExactly("notes.Txt");
    HasTxtExtensionExactly("notes.md");
  }

  /** The position of the last `c` in `s`, if any. */
  function LastIndexOf(s: string, c: char): (r: Option<nat>)
    ensures r.None? ==> c !in s
    ensures r.Some? ==> r.value < |s| && s[r.value] == c && c !in s[r.value + 1..]
  {
    if s == [] then None
    else if s[|s| - 1] == c then Some(|s| - 1)
    else
      var r := LastIndexOf(s[..|s| - 1], c);
      assert r.Some? ==> s[r.value + 1..] == s[..|s| - 1][r.value + 1..] + [s[|s| - 1]];
      r
  }

  /**
   * `os.path.splitext(name)[0]`: drop the text from the last dot on, unless every character
   * before that dot is itself a dot (a leading-dot name such as `.txt` has no extension).
   */
  function Stem(name: string): string {
    match LastIndexOf(name, '.')
    case None => name
    case Some(d) => if exists j :: 0 <= j < d && name[j] != '.' then name[..d] else name
  }

  /** `s.replace("_", " ")` */
  function ReplaceUnderscores(s: string): (r: string)
    ensures |r| == |s| && '_' !in r
  {
    if s == [] then [] else [if s[0] == '_' then ' ' else s[0]] + ReplaceUnderscores(s[1..])
  }

  /** `s.title()` continued after a character that was (`prevCased`) or was not cased. */
  function TitleFrom(s: string, prevCased: bool): string {
    if s == [] then []
    else [if prevCased then ToLower(s[0]) else ToUpper(s[0])] + TitleFrom(s[1..], IsCased(s[0]))
  }

  function TitleCase(s: string): string { TitleFrom(s, false) }

  /** The display name of a loaded file: `splitext(fname)[0].replace("_", " ").title()`. */
  function DisplayName(fname: string): (r: string)
    ensures |r| == |Stem(fname)| <= |fname|
  {
    StemIsPrefix(fname);
    TitleCaseAt(ReplaceUnderscores(Stem(fname)));
    TitleCase(ReplaceUnderscores(Stem(fname)))
  }

  /** The stem is a prefix of the name. */
  lemma StemIsPrefix(name: string)
    ensures Stem(name) <= name
  {
  }

  /**
   * For a name `stem + ext` whose extension `ext` is one dot and no other, and whose stem is not
   * all dots, `splitext` gives back the stem; a name without a dot is its own stem.
   */
  lemma StemOfExtension(stem: string, ext: string)
    requires |ext| > 0 && ext[0] == '.' && '.' !in ext[1..]
    requires exists j :: 0 <= j < |stem| && stem[j] != '.'
    ensures Stem(stem + ext) == stem
    ensures '.' !in stem ==> Stem(stem) == stem
  {
    var name := stem + ext;
    LastDotOfExtension(stem, ext);
    var j :| 0 <= j < |stem| && stem[j] != '.';
    assert name[j] != '.';
    assert name[..|stem|] == stem;
  }

  /**
   * Title-casing keeps the length and decides each character by its predecessor alone: a letter
   * after a cased letter is lower-cased, every other letter upper-cased, everything else kept.
   */
  lemma {:induction false} TitleFromAt(s: string, prevCased: bool)
    ensures |TitleFrom(s, prevCased)| == |s|
    ensures forall i :: 0 <= i < |s| ==>
      TitleFrom(s, prevCased)[i] ==
        if (if i == 0 then prevCased else IsCased(s[i - 1])) then ToLower(s[i]) else ToUpper(s[i])
  {
    if s != [] {
      TitleFromAt(s[1..], IsCased(s[0]));
      forall i | 1 <= i < |s|
        ensures TitleFrom(s, prevCased)[i] == TitleFrom(s[1..], IsCased(s[0]))[i - 1]
      {
      }
    }
  }

  lemma TitleCaseAt(s: string)
    ensures |TitleCase(s)| == |s|
    ensures forall i :: 0 <= i < |s| ==>
      TitleCase(s)[i] == if i > 0 && IsCased(s[i - 1]) then ToLower(s[i]) else ToUpper(s[i])
  {
    TitleFromAt(s, false);
  }

  /** A display name never contains an underscore. */
  lemma DisplayNameHasNoUnderscore(fname: string)
    ensures '_' !in DisplayName(fname)
  {
    var s := ReplaceUnderscores(Stem(fname));
    TitleCaseAt(s);
    assert DisplayName(fname) == TitleCase(s);
    forall i | 0 <= i < |s|
      ensures DisplayName(fname)[i] != '_'
    {
      assert s[i] in s;
      assert s[i] != '_';
      assert ToLower(s[i]) != '_';
      assert ToUpper(s[i]) != '_';
      if i > 0 && IsCased(s[i - 1]) {
        assert TitleCase(s)[i] == ToLower(s[i]);
      } else {
        assert TitleCase(s)[i] == ToUpper(s[i]);
      }
    }
  }

  /**
   * For a name `stem + ext` whose extension `ext` is one dot and no other, and whose stem is not all
   * dots, the display name is the title-cased stem with underscores turned into spaces.
   */
  lemma DisplayNameOfExtension(stem: string, ext: string)
    requires |ext| > 0 && ext[0] == '.' && '.' !in ext[1..]
    requires exists j :: 0 <= j < |stem| && stem[j] != '.'
    ensures DisplayName(stem + ext) == TitleCase(ReplaceUnderscores(stem))
  {
    StemOfExtension(stem, ext);
  }

  lemma LastDotOfExtension(stem: string, ext: string)
    requires |ext| > 0 && ext[0] == '.' && '.' !in ext[1..]
    ensures LastIndexOf(stem + ext, '.') == Some(|stem|)
  {
    var name := stem + ext;
    assert name[|stem| + 1..] == ext[1..];
    LastIndexOfAt(name, '.', |stem|);
  }

  /** The last occurrence is the one with no further occurrence after it. */
  lemma {:induction false} LastIndexOfAt(s: string, c: char, k: nat)
    requires k < |s| && s[k] == c && c !in s[k + 1..]
    ensures LastIndexOf(s, c) == Some(k)
  {
    if k < |s| - 1 {
      assert s[|s| - 1] == s[k + 1..][|s| - k - 2];
      assert s[..|s| - 1][k + 1..] == s[k + 1..|s| - 1];
      LastIndexOfAt(s[..|s| - 1], c, k);
    }
  }

  lemma {:induction false} ReplaceUnderscoresAt(s: string)
    ensures forall i :: 0 <= i < |s| ==> ReplaceUnderscores(s)[i] == if s[i] == '_' then ' ' else s[i]
  {
    if s != [] {
      ReplaceUnderscoresAt(s[1..]);
      forall i | 1 <= i < |s|
        ensures ReplaceUnderscores(s)[i] == ReplaceUnderscores(s[1..])[i - 1]
      {
      }
    }
  }

  /** The Title-cased name of an ordinary text file: `my_faq.txt` is shown as `My Faq`. */
  lemma DisplayNameExample()
    ensures DisplayName("my_faq.txt") == "My Faq"
  {
    var stem := "my_faq";
    assert stem[0] != '.';
    assert stem + ".txt" == "my_faq.txt";
    DisplayNameOfExtension(stem, ".txt");
    SpacedExample();
    TitledExample();
  }

  lemma SpacedExample()
    ensures ReplaceUnderscores("my_faq") == "my faq"
  {
    ReplaceUnderscoresAt("my_faq");
    var spaced := ReplaceUnderscores("my_faq");
    assert spaced[2] == ' ';
    assert spaced == "my faq";
  }

  lemma TitledExample()
    ensures TitleCase("my faq") == "My Faq"
  {
    var spaced := "my faq";
    TitleCaseAt(spaced);
    var titled := TitleCase(spaced);
    assert titled[0] == ToUpper('m') == 'M';
    assert titled[1] == ToLower('y') == 'y';
    assert titled[2] == ' ';
    assert titled[3] == ToUpper('f') == 'F';
    assert titled[4] == ToLower('a') == 'a';
    assert titled[5] == ToLower('q') == 'q';
    assert titled == "My Faq";
  }

  /** A name made only of the extension keeps it: `.txt` is shown as `.Txt`. */
  lemma DisplayNameOfBareExtension()
    ensures DisplayName(".txt") == ".Txt"
  {
    assert LastIndexOf(".txt", '.') == Some(0);
    assert Stem(".txt") == ".txt";
    assert ReplaceUnderscores(".txt") == ".txt";
    TitleCaseAt(".txt");
  }

  // ---------------------------------------------------------------------------------------------
  // FileLoader

  /** The walked file `e` is loaded as document `d`. */
  ghost predicate LoadsAs(e: FileEntry, d: DocumentEntry) {
    HasTxtExtension(e.name) && e.content.Some? && d == Document(DisplayName(e.name), e.content.value)
  }

  /** What one walked file contributes: its document when the name ends in `.txt` and the read succeeded. */
  function LoadOne(e: FileEntry): seq<DocumentEntry> {
    if HasTxtExtension(e.name) && e.content.Some? then [Document(DisplayName(e.name), e.content.value)] else []
  }

  /** A walked file contributes at most one document: the one it loads as. */
  lemma LoadOneExactly(e: FileEntry, d: DocumentEntry)
    ensures |LoadOne(e)| <= 1
    ensures d in LoadOne(e) <==> LoadsAs(e, d)
  {
  }

  /** The documents `load_files` collects from the first entries of the walk, in walk order. */
  function Loaded(entries: seq<FileEntry>): seq<DocumentEntry> {
    if entries == [] then []
    else Loaded(entries[..|entries| - 1]) + LoadOne(entries[|entries| - 1])
  }

  /** Loading a walk in two parts loads each part, in order. */
  lemma {:induction false} LoadedAppend(a: seq<FileEntry>, b: seq<FileEntry>)
    ensures Loaded(a + b) == Loaded(a) + Loaded(b)
  {
    if b == [] {
      assert a + b == a;
    } else {
      var init, last := b[..|b| - 1], b[|b| - 1];
      assert (a + b)[..|a + b| - 1] == a + init;
      assert (a + b)[|a + b| - 1] == last;
      assert Loaded(a + b) == Loaded(a + init) + LoadOne(last);
      assert Loaded(b) == Loaded(init) + LoadOne(last);
      LoadedAppend(a, init);
    }
  }

  /**
   * A document is loaded exactly when some walked file has a `.txt` name (in any case) and was
   * read: its name is that file's display name and its content the file's content. Files that
   * fail to read are skipped without affecting the others.
   */
  lemma {:induction false} LoadedExactly(entries: seq<FileEntry>, d: DocumentEntry)
    ensures d in Loaded(entries) <==> exists e :: e in entries && LoadsAs(e, d)
  {
    if entries != [] {
      var init, last := entries[..|entries| - 1], entries[|entries| - 1];
      LoadedExactly(init, d);
      assert entries == init + [last];
      LoadOneExactly(last, d);
      assert d in Loaded(entries) <==> d in Loaded(init) || LoadsAs(last, d);
      if d in Loaded(entries) {
        if d in Loaded(init) {
          var e :| e in init && LoadsAs(e, d);
          assert e in entries;
        } else {
          assert last in entries;
        }
      } else {
        forall e | e in entries
          ensures !LoadsAs(e, d)
        {
          assert e in init || e == last;
        }
      }
    }
  }

  /** Every loaded document is a `(name, content)` pair whose name holds no underscore. */
  lemma {:induction false} LoadedNamesHaveNoUnderscore(entries: seq<FileEntry>)
    ensures forall d :: d in Loaded(entries) ==> d.Document? && '_' !in d.name
  {
    forall d | d in Loaded(entries)
      ensures d.Document? && '_' !in d.name
    {
      LoadedExactly(entries, d);
      var e :| e in entries && LoadsAs(e, d);
      DisplayNameHasNoUnderscore(e.name);
    }
  }

  class FileLoader {
    var directory: string

    constructor (directory: string := DefaultDirectory)
      ensures this.directory == directory
    {
      this.directory := directory;
    }

    /**
     * `load_files`: `listing` is the walk of `directory`, `None` when the directory does not
     * exist (then `[]` is returned without raising).
     */
    method LoadFiles(listing: Option<seq<FileEntry>>) returns (files: seq<DocumentEntry>)
      ensures files == match listing
                       case None => []
                       case Some(entries) => Loaded(entries)
    {
      files := [];
      if listing.None? {
        return;
      }
      var entries := listing.value;
      var i := 0;
      while i < |entries|
        invariant 0 <= i <= |entries|
        invariant files == Loaded(entries[..i])
      {
        var e := entries[i];
        ghost var before := files;
        if HasTxtExtension(e.name) && e.content.Some? {
          files := files + [Document(DisplayName(e.name), e.content.value)];
        }
        assert files == before + LoadOne(e);
        assert entries[..i + 1][..i] == entries[..i];
        assert entries[..i + 1][i] == e;
        i := i + 1;
      }
      assert entries[..i] == entries;
    }
  }

  // ---------------------------------------------------------------------------------------------
  // TextChunker

  /** The chunks of one document's pieces, each tagged with the document's name. */
  function Tag(pieces: seq<string>, filename: string): (r: seq<Chunk>)
    ensures |r| == |pieces|
  {
    if pieces == [] then [] else [Chunk(pieces[0], ChunkMetadata(filename))] + Tag(pieces[1..], filename)
  }

  function Texts(chunks: seq<Chunk>): seq<string> {
    if chunks == [] then [] else [chunks[0].text] + Texts(chunks[1..])
  }

  /** Tagging loses nothing: the texts of the tagged chunks are the pieces, and every tag is the name. */
  lemma {:induction false} TagKeepsPieces(pieces: seq<string>, filename: string)
    ensures Texts(Tag(pieces, filename)) == pieces
    ensures forall c :: c in Tag(pieces, filename) ==> c.metadata.filename == filename
  {
    if pieces != [] {
      var head, rest := Chunk(pieces[0], ChunkMetadata(filename)), Tag(pieces[1..], filename);
      var tagged := Tag(pieces, filename);
      TagKeepsPieces(pieces[1..], filename);
      assert tagged == [head] + rest;
      assert tagged[1..] == rest;
      assert Texts(tagged) == [pieces[0]] + pieces[1..];
      assert forall c :: c in tagged ==> c == head || c in rest;
    }
  }

  /** The chunker's constructor: `None` and an empty list are refused with `ValueError`. */
  function NewTextChunker(documents: Option<seq<DocumentEntry>>, splitterCheck: SplitterCheck,
                          chunkSize: int := DefaultChunkSize,
                          chunkOverlap: int := DefaultChunkOverlap): (r: Result<TextChunker, ChunkerError>)
    ensures r.Success? <==> documents.Some? && documents.value != [] && splitterCheck(chunkSize, chunkOverlap).None?
    ensures documents.None? ==> r == Failure(ValueError("documents must be provided"))
    ensures documents == Some([]) ==> r == Failure(ValueError("documents list is empty"))
    ensures documents.Some? && documents.value != [] && splitterCheck(chunkSize, chunkOverlap).Some?
            ==> r == Failure(ValueError(splitterCheck(chunkSize, chunkOverlap).value))
    ensures r.Success? ==> r.value == TextChunker(documents.value, chunkSize, chunkOverlap)
  {
    if documents.None? then Failure(ValueError("documents must be provided"))
    else if documents.value == [] then Failure(ValueError("documents list is empty"))
    else match splitterCheck(chunkSize, chunkOverlap)
      case Some(message) => Failure(ValueError(message))
      case None => Success(TextChunker(documents.value, chunkSize, chunkOverlap))
  }

  datatype TextChunker = TextChunker(documents: seq<DocumentEntry>, chunkSize: int, chunkOverlap: int) {

    /**
     * `split_into_chunks`: exactly the splitter's pieces, in order, each tagged with `filename`;
     * `[]` when the splitter raises.
     */
    function SplitIntoChunks(splitter: Splitter, filename: string, text: string): (r: seq<Chunk>)
      ensures |r| == |splitter(chunkSize, chunkOverlap, text).GetOr([])|
      ensures forall c :: c in r ==> c.metadata.filename == filename
      ensures Texts(r) == splitter(chunkSize, chunkOverlap, text).GetOr([])
    {
      var pieces := splitter(chunkSize, chunkOverlap, text).GetOr([]);
      TagKeepsPieces(pieces, filename);
      Tag(pieces, filename)
    }

    /** The loop of `split_docs` over the first documents, or `None` once an exception escapes it. */
    function ChunkLoop(splitter: Splitter, docs: seq<DocumentEntry>): Option<seq<Chunk>> {
      if docs == [] then Some([])
      else
        match ChunkLoop(splitter, docs[..|docs| - 1])
        case None => None
        case Some(prev) =>
          match docs[|docs| - 1]
          case Malformed => None
          case Document(name, content) => Some(prev + SplitIntoChunks(splitter, name, content))
    }

    /** The per-document chunks of well-formed documents, concatenated in document order. */
    function AllChunks(splitter: Splitter, docs: seq<DocumentEntry>): seq<Chunk> {
      if docs == [] then []
      else
        (match docs[0]
         case Malformed => []
         case Document(name, content) => SplitIntoChunks(splitter, name, content))
        + AllChunks(splitter, docs[1..])
    }

    /** The number of chunks each well-formed document splits into, summed. */
    function ChunkCount(splitter: Splitter, docs: seq<DocumentEntry>): nat {
      if docs == [] then 0
      else
        (match docs[0]
         case Malformed => 0
         case Document(name, content) => |splitter(chunkSize, chunkOverlap, content).GetOr([])|)
        + ChunkCount(splitter, docs[1..])
    }

    lemma {:induction false} AllChunksAppend(splitter: Splitter, a: seq<DocumentEntry>, b: seq<DocumentEntry>)
      ensures AllChunks(splitter, a + b) == AllChunks(splitter, a) + AllChunks(splitter, b)
      ensures ChunkCount(splitter, a + b) == ChunkCount(splitter, a) + ChunkCount(splitter, b)
    {
      if a == [] {
        assert a + b == b;
      } else {
        assert (a + b)[1..] == a[1..] + b;
        AllChunksAppend(splitter, a[1..], b);
      }
    }

    /**
     * `split_docs` over well-formed documents returns the concatenation of `split_into_chunks` over
     * the documents in order; its length is the sum of the per-document piece counts.
     */
    lemma {:induction false} ChunkLoopConcatenates(splitter: Splitter, docs: seq<DocumentEntry>)
      requires forall i :: 0 <= i < |docs| ==> docs[i].Document?
      ensures ChunkLoop(splitter, docs) == Some(AllChunks(splitter, docs))
      ensures |AllChunks(splitter, docs)| == ChunkCount(splitter, docs)
    {
      if docs != [] {
        var init, last := docs[..|docs| - 1], docs[|docs| - 1];
        ChunkLoopConcatenates(splitter, init);
        assert docs == init + [last];
        AllChunksAppend(splitter, init, [last]);
        assert [last][1..] == [];
        var own := SplitIntoChunks(splitter, last.name, last.content);
        assert AllChunks(splitter, [last]) == own + AllChunks(splitter, []);
        assert AllChunks(splitter, [last]) == own;
        assert ChunkLoop(splitter, docs) == Some(AllChunks(splitter, init) + own);
      }
    }

    /** A malformed entry anywhere discards everything: the loop ends in an exception. */
    lemma {:induction false} ChunkLoopFailsOnMalformed(splitter: Splitter, docs: seq<DocumentEntry>, k: nat)
      requires k < |docs| && docs[k].Malformed?
      ensures ChunkLoop(splitter, docs).None?
    {
      if k < |docs| - 1 {
        ChunkLoopFailsOnMalformed(splitter, docs[..|docs| - 1], k);
      }
    }

    /** Every chunk `split_docs` produces is tagged with the name of one of the documents. */
    lemma {:induction false} ChunkNamesComeFromDocuments(splitter: Splitter, docs: seq<DocumentEntry>)
      ensures forall c :: c in AllChunks(splitter, docs) ==>
        exists i :: 0 <= i < |docs| && docs[i].Document? && docs[i].name == c.metadata.filename
    {
      if docs != [] {
        ChunkNamesComeFromDocuments(splitter, docs[1..]);
        forall c | c in AllChunks(splitter, docs)
          ensures exists i :: 0 <= i < |docs| && docs[i].Document? && docs[i].name == c.metadata.filename
        {
          if c !in AllChunks(splitter, docs[1..]) {
            assert docs[0].Document? && docs[0].name == c.metadata.filename;
          } else {
            var i :| 0 <= i < |docs[1..]| && docs[1..][i].Document? && docs[1..][i].name == c.metadata.filename;
            assert docs[i + 1] == docs[1..][i];
          }
        }
      }
    }

    /**
     * `split_docs`: splits every document in order and concatenates the chunks; an exception
     * escaping the loop (an entry that is not a pair) discards what was collected and yields `[]`.
     */
    method SplitDocs(splitter: Splitter) returns (allChunks: seq<Chunk>)
      ensures allChunks == ChunkLoop(splitter, documents).GetOr([])
    {
      allChunks := [];
      var i := 0;
      while i < |documents|
        invariant 0 <= i <= |documents|
        invariant ChunkLoop(splitter, documents[..i]) == Some(allChunks)
      {
        assert documents[..i + 1][..i] == documents[..i];
        if documents[i].Malformed? {
          ChunkLoopFailsOnMalformed(splitter, documents, i);
          return [];
        }
        var chunks := SplitIntoChunks(splitter, documents[i].name, documents[i].content);
        allChunks := allChunks + chunks;
        i := i + 1;
      }
      assert documents[..i] == documents;
    }
  }

  /**
   * A single short document under a splitter that keeps it whole yields exactly one chunk holding
   * the full text, tagged with the document's name.
   */
  lemma SingleDocumentSingleChunk(chunker: TextChunker, splitter: Splitter, name: string, content: string)
    requires chunker.documents == [Document(name, content)]
    requires splitter(chunker.chunkSize, chunker.chunkOverlap, content) == Some([content])
    ensures chunker.ChunkLoop(splitter, chunker.documents) == Some([Chunk(content, ChunkMetadata(name))])
  {
    var docs := chunker.documents;
    assert docs[..0] == [];
    assert chunker.ChunkLoop(splitter, docs[..0]) == Some([]);
    assert Tag([content], name) == [Chunk(content, ChunkMetadata(name))];
    assert chunker.SplitIntoChunks(splitter, name, content) == [Chunk(content, ChunkMetadata(name))];
    assert chunker.ChunkLoop(splitter, docs) == Some([] + chunker.SplitIntoChunks(splitter, name, content));
    assert [] + chunker.SplitIntoChunks(splitter, name, content) == [Chunk(content, ChunkMetadata(name))];
  }
}
