// The media files of an exported conversation: how src/helpers/conversation-zip.ts pulls
// embedded bytes out of the messages, names the files and links them from the Markdown.

module Media {
  import Crc32
  import Zip

  type Byte = Zip.Byte

  datatype Source = Inline(bytes: seq<Byte>, mime: string) | External(url: string) | Unknown

  /** A content part: media with its kind, or anything rendered without a file. */
  datatype Part = Media(kind: Kind, source: Source) | Plain(text: string)

  datatype Kind = Image | Audio | Video | Document

  datatype File = File(name: string, bytes: seq<Byte>)

  // ----------------------------------------------------------------- names

  function Decimal(n: nat): (s: string)
    ensures |s| >= 1
  {
    if n < 10 then ['0' + n as char] else Decimal(n / 10) + ['0' + (n % 10) as char]
  }

  /** Padded to three digits; longer numbers keep all of theirs. */
  function Padded(s: string): string
    decreases 3 - |s|
  {
    if |s| >= 3 then s else Padded("0" + s)
  }

  function Value(s: string): int {
    if s == "" then 0 else 10 * Value(s[..|s| - 1]) + (s[|s| - 1] as int - '0' as int)
  }

  predicate Digits(s: string) { forall i :: 0 <= i < |s| ==> '0' <= s[i] <= '9' }

  lemma {:induction false} DecimalReadsBack(n: nat)
    ensures Digits(Decimal(n)) && Value(Decimal(n)) == n
  {
    if n >= 10 {
      DecimalReadsBack(n / 10);
      assert Decimal(n)[..|Decimal(n)| - 1] == Decimal(n / 10);
    } else {
      assert Decimal(n)[..0] == "";
    }
  }

  lemma {:induction false} LeadingZero(s: string)
    ensures Value("0" + s) == Value(s)
  {
    var z := "0" + s;
    if s == "" {
      assert z[..0] == "";
    } else {
      assert z[..|z| - 1] == "0" + s[..|s| - 1];
      LeadingZero(s[..|s| - 1]);
    }
  }

  lemma {:induction false} PaddedReadsBack(s: string)
    requires Digits(s)
    ensures Digits(Padded(s)) && Value(Padded(s)) == Value(s)
    decreases 3 - |s|
  {
    if |s| < 3 {
      LeadingZero(s);
      PaddedReadsBack("0" + s);
    }
  }

  function Name(dir: string, counter: nat, ext: string): string {
    dir + "/media-" + Padded(Decimal(counter)) + "." + ext
  }

  lemma DigitsThenDot(a: string, x: string, b: string, y: string)
    requires Digits(a) && Digits(b) && a + "." + x == b + "." + y
    ensures a == b
  {
    var s := a + "." + x;
    if |a| < |b| { LongerHoldsDot(a, x, b, y); }
    if |b| < |a| { LongerHoldsDot(b, y, a, x); }
    assert a == s[..|a|] && b == s[..|b|];
  }

  lemma LongerHoldsDot(a: string, x: string, b: string, y: string)
    requires a + "." + x == b + "." + y && |a| < |b|
    ensures !Digits(b)
  {
    assert b[|a|] == (b + "." + y)[|a|] == '.';
  }

  /** No two counters make one name, whatever the extensions. */
  lemma NamesDiffer(dir: string, i: nat, x: string, j: nat, y: string)
    requires Name(dir, i, x) == Name(dir, j, y)
    ensures i == j
  {
    hide Decimal, Padded, Value;
    DecimalReadsBack(i);
    DecimalReadsBack(j);
    PaddedReadsBack(Decimal(i));
    PaddedReadsBack(Decimal(j));
    var a, b := Padded(Decimal(i)), Padded(Decimal(j));
    var p := dir + "/media-";
    assert Name(dir, i, x)[|p|..] == a + "." + x;
    assert Name(dir, j, y)[|p|..] == b + "." + y;
    DigitsThenDot(a, x, b, y);
  }

  lemma {:induction false} DecimalLeads(n: nat)
    ensures n > 0 ==> Decimal(n)[0] != '0'
  {
    if n >= 10 { DecimalLeads(n / 10); }
  }

  /** A name spells its counter, in three digits or as many more as it takes. */
  lemma NameSpells(dir: string, counter: nat, ext: string) returns (digits: string)
    ensures Name(dir, counter, ext) == dir + "/media-" + digits + "." + ext
    ensures Digits(digits) && Value(digits) == counter
    ensures |digits| >= 3 && (|digits| > 3 ==> digits[0] != '0')
  {
    hide Value;
    digits := Padded(Decimal(counter));
    DecimalReadsBack(counter);
    PaddedReadsBack(Decimal(counter));
    DecimalLeads(counter);
    PaddedLength(Decimal(counter));
  }

  lemma {:induction false} PaddedLength(s: string)
    ensures |Padded(s)| >= 3 && (|Padded(s)| > 3 ==> Padded(s) == s && |s| > 1)
    decreases 3 - |s|
  {
    if |s| < 3 { PaddedLength("0" + s); }
  }

  // ------------------------------------------------------------- rendering

  function Inlines(parts: seq<Part>): seq<Source> {
    if parts == [] then []
    else
      var p := parts[|parts| - 1];
      Inlines(parts[..|parts| - 1]) + (if p.Media? && p.source.Inline? then [p.source] else [])
  }

  function Label(kind: Kind): string {
    match kind case Image => "image" case Audio => "audio" case Video => "video" case Document => "document"
  }

  function Link(kind: Kind, href: string): string {
    if href == "" then "[" + Label(kind) + "]"
    else if kind == Image then "![image](" + href + ")"
    else "[" + Label(kind) + "](" + href + ")"
  }

  /** How Markdown reads a link: an optional mark for a picture, a caption in brackets and, perhaps,
      a target in parentheses. */
  datatype Reading = Reading(picture: bool, caption: string, target: Option<string>)
  datatype Option<+T> = None | Some(value: T)

  function Find(s: string, c: char): (i: nat)
    ensures i <= |s| && c !in s[..i] && (i < |s| ==> s[i] == c)
  {
    if s == "" || s[0] == c then 0 else 1 + Find(s[1..], c)
  }

  function ReadLink(text: string): Option<Reading> {
    var picture := text != "" && text[0] == '!';
    var s := if picture then text[1..] else text;
    if s == "" || s[0] != '[' then None else
      var i := Find(s, ']');
      if i == |s| then None else
        var rest := s[i + 1..];
        if rest == "" then Some(Reading(picture, s[1..i], None))
        else if |rest| >= 2 && rest[0] == '(' && rest[|rest| - 1] == ')' then
          Some(Reading(picture, s[1..i], Some(rest[1..|rest| - 1])))
        else None
  }

  lemma FoundAt(a: string, c: char, b: string)
    requires c !in a
    ensures Find(a + [c] + b, c) == |a|
  {
    var s := a + [c] + b;
    assert s[|a|] == c && forall i :: 0 <= i < |a| ==> s[i] == a[i];
    assert forall i :: |a| < i <= |s| ==> s[..i][|a|] == c;
  }

  lemma BracketsRead(caption: string, rest: string)
    requires ']' !in caption && (rest == "" || (|rest| >= 2 && rest[0] == '(' && rest[|rest| - 1] == ')'))
    ensures var target := if rest == "" then None else Some(rest[1..|rest| - 1]);
            && ReadLink("[" + caption + "]" + rest) == Some(Reading(false, caption, target))
            && ReadLink("!" + ("[" + caption + "]" + rest)) == Some(Reading(true, caption, target))
  {
    hide Find;
    var s := "[" + caption + "]" + rest;
    FoundAt("[" + caption, ']', rest);
    assert "[" + caption + [']'] + rest == s;
    assert s[1..|caption| + 1] == caption && s[|caption| + 2..] == rest;
    assert ("!" + s)[1..] == s;
  }

  /** What Markdown makes of a link: its caption, its very target, and a picture exactly for an image
      with a target. */
  lemma LinkReads(kind: Kind, href: string)
    ensures var caption := match kind case Image => "image" case Audio => "audio"
                                      case Video => "video" case Document => "document";
            ReadLink(Link(kind, href)) ==
            Some(Reading(kind.Image? && href != "", caption, if href == "" then None else Some(href)))
  {
    LabelKnown(kind);
    hide Label, ReadLink;
    var caption := Label(kind);
    if href == "" {
      BracketsRead(caption, "");
      assert "[" + caption + "]" + "" == Link(kind, href);
    } else {
      var rest := "(" + href + ")";
      BracketsRead(caption, rest);
      assert rest[1..|rest| - 1] == href;
      if kind == Image {
        assert "!" + ("[" + caption + "]" + rest) == Link(kind, href);
      } else {
        assert "[" + caption + "]" + rest == Link(kind, href);
      }
    }
  }

  lemma LabelKnown(kind: Kind)
    ensures ']' !in Label(kind)
    ensures Label(kind) == match kind case Image => "image" case Audio => "audio"
                                      case Video => "video" case Document => "document"
  {
  }

  /** So parts with different targets have different texts. */
  lemma LinksDiffer(a: Kind, href: string, b: Kind, other: string)
    ensures Link(a, href) == Link(b, other) ==> href == other && a == b
  {
    hide Link, ReadLink;
    LinkReads(a, href);
    LinkReads(b, other);
  }

  /** The file of the embedded source after `before` others. */
  function FileOf(dir: string, ext: string -> string, before: nat, s: Source): File
    requires s.Inline?
  {
    File(Name(dir, before + 1, ext(s.mime)), s.bytes)
  }

  function TextOf(dir: string, ext: string -> string, before: nat, p: Part): string {
    match p
    case Plain(text) => text
    case Media(kind, source) =>
      Link(kind, if source.Inline? then FileOf(dir, ext, before, source).name
                  else if source.External? then source.url else "")
  }

  /** The files are those of the embedded sources, numbered in order. */
  ghost predicate FilesOf(files: seq<File>, dir: string, ext: string -> string, parts: seq<Part>) {
    && |files| == |Inlines(parts)|
    && forall i :: 0 <= i < |files| ==> Inlines(parts)[i].Inline? && files[i] == FileOf(dir, ext, i, Inlines(parts)[i])
  }

  lemma InlinesSnoc(parts: seq<Part>, p: Part)
    ensures Inlines(parts + [p]) == Inlines(parts) + (if p.Media? && p.source.Inline? then [p.source] else [])
  {
    assert (parts + [p])[..|parts|] == parts;
  }

  class MediaSink {
    const dir: string
    const ext: string -> string
    var counter: nat
    var files: seq<File>

    constructor (dir: string, ext: string -> string)
      ensures this.dir == dir && this.ext == ext && counter == 0 && files == []
    {
      this.dir, this.ext, counter, files := dir, ext, 0, [];
    }

    method Put(bytes: seq<Byte>, mime: string) returns (name: string)
      modifies this
      ensures counter == old(counter) + 1 && name == Name(dir, counter, ext(mime))
      ensures files == old(files) + [File(name, bytes)]
    {
      counter := counter + 1;
      name := Name(dir, counter, ext(mime));
      files := files + [File(name, bytes)];
    }
  }

  method RenderParts(parts: seq<Part>, sink: MediaSink) returns (texts: seq<string>)
    requires sink.counter == 0 && sink.files == []
    modifies sink
    ensures FilesOf(sink.files, sink.dir, sink.ext, parts) && sink.counter == |sink.files|
    ensures |texts| == |parts|
    ensures forall k :: 0 <= k < |parts| ==>
              texts[k] == TextOf(sink.dir, sink.ext, |Inlines(parts[..k])|, parts[k])
  {
    hide Name, Link, Inlines;
    texts := [];
    assert Inlines([]) == [] by { NoInlines(); }
    for i := 0 to |parts|
      invariant FilesOf(sink.files, sink.dir, sink.ext, parts[..i]) && sink.counter == |sink.files|
      invariant |texts| == i
      invariant forall k :: 0 <= k < i ==> texts[k] == TextOf(sink.dir, sink.ext, |Inlines(parts[..k])|, parts[k])
    {
      InlinesSnoc(parts[..i], parts[i]);
      assert parts[..i + 1] == parts[..i] + [parts[i]];
      match parts[i] {
        case Plain(text) => texts := texts + [text];
        case Media(kind, source) =>
          var href := "";
          match source {
            case Inline(bytes, mime) => href := sink.Put(bytes, mime);
            case External(url) => href := url;
            case Unknown =>
          }
          texts := texts + [Link(kind, href)];
      }
    }
    assert parts[..|parts|] == parts;
  }

  lemma NoInlines()
    ensures Inlines([]) == []
  {
  }

  lemma {:induction false} InlineAt(parts: seq<Part>, k: nat)
    requires k < |parts| && parts[k].Media? && parts[k].source.Inline?
    ensures var n := |Inlines(parts[..k])|; n < |Inlines(parts)| && Inlines(parts)[n] == parts[k].source
    decreases |parts|
  {
    var front, p := parts[..|parts| - 1], parts[|parts| - 1];
    InlinesSnoc(front, p);
    assert front + [p] == parts;
    if k < |front| {
      InlineAt(front, k);
      assert front[..k] == parts[..k];
    } else {
      assert front == parts[..k];
    }
  }

  // --------------------------------------------------------------- archive

  /** The Markdown document first, then the media files. */
  function ArchiveOf(mdName: string, markdown: seq<Byte>, files: seq<File>): seq<File> {
    [File(mdName, markdown)] + files
  }

  /** The entries as they are written, their names encoded. */
  function Encoded(encode: string -> seq<Byte>, files: seq<File>): (entries: seq<Zip.ZipEntry>)
    ensures |entries| == |files|
    ensures forall i :: 0 <= i < |files| ==> entries[i] == Zip.ZipEntry(encode(files[i].name), files[i].bytes)
  {
    seq(|files|, (i: int) requires 0 <= i < |files| => Zip.ZipEntry(encode(files[i].name), files[i].bytes))
  }

  /** `render` makes the document of the parts' texts. */
  method ConversationToZip(parts: seq<Part>, dir: string, mdName: string, ext: string -> string,
                           encode: string -> seq<Byte>, render: seq<string> -> seq<Byte>, table: array<bv32>)
    returns (zip: array<Byte>, mediaCount: nat, ghost files: seq<File>, ghost texts: seq<string>)
    requires Crc32.IsCrcTable(table[..])
    ensures FilesOf(files, dir, ext, parts) && mediaCount == |Inlines(parts)| && |texts| == |parts|
    ensures forall k :: 0 <= k < |parts| ==> texts[k] == TextOf(dir, ext, |Inlines(parts[..k])|, parts[k])
    ensures zip[..] == Zip.ZipBytes(Encoded(encode, ArchiveOf(mdName, render(texts), files)))
  {
    hide FilesOf, TextOf, Inlines;
    var sink := new MediaSink(dir, ext);
    var rendered := RenderParts(parts, sink);
    var all := ArchiveOf(mdName, render(rendered), sink.files);
    files, texts, mediaCount := sink.files, rendered, sink.counter;
    FilesCounted(files, dir, ext, parts);
    zip := Zip.BuildZip(table, Encoded(encode, all));
  }

  lemma FilesCounted(files: seq<File>, dir: string, ext: string -> string, parts: seq<Part>)
    requires FilesOf(files, dir, ext, parts)
    ensures |files| == |Inlines(parts)|
  {
  }

  lemma MediaNamesDiffer(files: seq<File>, dir: string, ext: string -> string, parts: seq<Part>, i: nat, j: nat)
    requires FilesOf(files, dir, ext, parts) && i < |files| && j < |files|
    ensures files[i].name == files[j].name <==> i == j
  {
    hide Name, Inlines;
    if files[i].name == files[j].name {
      NamesDiffer(dir, i + 1, ext(Inlines(parts)[i].mime), j + 1, ext(Inlines(parts)[j].mime));
    }
  }

  /** Every other part's text: its own words, or a link to where the media is, or a mere caption
      when it is nowhere; a file is made of neither. */
  lemma OtherTexts(dir: string, ext: string -> string, n: nat, parts: seq<Part>, p: Part)
    requires p.Plain? || !p.source.Inline?
    ensures p.Plain? ==> TextOf(dir, ext, n, p) == p.text
    ensures p.Media? ==>
              var target := if p.source.External? && p.source.url != "" then Some(p.source.url) else None;
              ReadLink(TextOf(dir, ext, n, p)) == Some(Reading(p.kind.Image? && target.Some?, Label(p.kind), target))
    ensures Inlines(parts + [p]) == Inlines(parts)
  {
    hide Link, ReadLink, Inlines;
    InlinesSnoc(parts, p);
    if p.Media? { LinkReads(p.kind, if p.source.External? then p.source.url else ""); }
    assert Inlines(parts) + [] == Inlines(parts);
  }

  predicate OnlyOneNamed(files: seq<File>, n: nat)
    requires n < |files|
  {
    forall i :: 0 <= i < |files| && files[i].name == files[n].name ==> i == n
  }

  /** The text of an embedded part reads as a link to the file that holds the part's bytes, and no other entry
      of the archive, if and only if the document does not take that file's name. */
  lemma LinksLeadHome(files: seq<File>, dir: string, ext: string -> string, parts: seq<Part>, k: nat,
                      mdName: string, markdown: seq<Byte>)
    requires FilesOf(files, dir, ext, parts) && k < |parts| && parts[k].Media? && parts[k].source.Inline?
    ensures var n, all := |Inlines(parts[..k])|, ArchiveOf(mdName, markdown, files);
            && n + 1 < |all| && all[n + 1].bytes == parts[k].source.bytes
            && ReadLink(TextOf(dir, ext, n, parts[k])) ==
               Some(Reading(parts[k].kind == Image, Label(parts[k].kind), Some(all[n + 1].name)))
            && (OnlyOneNamed(all, n + 1) <==> mdName != all[n + 1].name)
  {
    hide Link, Inlines, Padded, Decimal;
    InlineAt(parts, k);
    var n, all := |Inlines(parts[..k])|, ArchiveOf(mdName, markdown, files);
    LinkReads(parts[k].kind, files[n].name);
    assert |files[n].name| > 0;
    hide Name, ReadLink;
    forall i: nat | i < |files| ensures files[i].name == files[n].name <==> i == n {
      MediaNamesDiffer(files, dir, ext, parts, i, n);
    }
    assert all[0].name == mdName && forall i :: 0 < i < |all| ==> all[i] == files[i - 1];
  }

  /** All names of the archive differ exactly when the document's is none of the files'. */
  lemma NamesUniqueIff(files: seq<File>, dir: string, ext: string -> string, parts: seq<Part>,
                       mdName: string, markdown: seq<Byte>)
    requires FilesOf(files, dir, ext, parts)
    ensures var all := ArchiveOf(mdName, markdown, files);
            (forall n: nat :: n < |all| ==> OnlyOneNamed(all, n)) <==> forall i :: 0 <= i < |files| ==> files[i].name != mdName
  {
    hide FilesOf;
    var all := ArchiveOf(mdName, markdown, files);
    assert all[0].name == mdName && forall i :: 0 < i < |all| ==> all[i] == files[i - 1];
    forall i: nat, j: nat | i < |files| && j < |files| ensures files[i].name == files[j].name <==> i == j {
      MediaNamesDiffer(files, dir, ext, parts, i, j);
    }
    if forall n: nat :: n < |all| ==> OnlyOneNamed(all, n) {
      forall i | 0 <= i < |files| ensures files[i].name != mdName {
        assert OnlyOneNamed(all, 0) && all[i + 1] == files[i];
      }
    }
  }

  ghost predicate Injective(encode: string -> seq<Byte>) { forall a, b :: encode(a) == encode(b) ==> a == b }

  /** Reading the archive back yields, under the name a link carries, the very bytes of the part
      the link stands for, and under no other position, as long as the document does not take
      that name. */
  lemma LinkSurvivesTheArchive(files: seq<File>, dir: string, ext: string -> string, parts: seq<Part>, k: nat,
                               mdName: string, markdown: seq<Byte>, encode: string -> seq<Byte>)
    requires FilesOf(files, dir, ext, parts) && k < |parts| && parts[k].Media? && parts[k].source.Inline?
    requires Injective(encode) && Zip.Fits(Encoded(encode, ArchiveOf(mdName, markdown, files)))
    ensures var n, all := |Inlines(parts[..k])|, ArchiveOf(mdName, markdown, files);
            var read := Zip.ReadZip(Zip.ZipBytes(Encoded(encode, all)));
            && n < |files| && read.Ok? && |read.value| == |all|
            && read.value[n + 1] == Zip.ZipEntry(encode(files[n].name), parts[k].source.bytes)
            && ((forall i :: 0 <= i < |read.value| && read.value[i].name == encode(files[n].name) ==> i == n + 1)
                <==> mdName != files[n].name)
  {
    hide Name, Link, ReadLink, Inlines, FilesOf;
    var n, all := |Inlines(parts[..k])|, ArchiveOf(mdName, markdown, files);
    LinksLeadHome(files, dir, ext, parts, k, mdName, markdown);
    Zip.RoundTrip(Encoded(encode, all));
    assert all[n + 1] == files[n];
    var read := Zip.ReadZip(Zip.ZipBytes(Encoded(encode, all))).value;
    forall i | 0 <= i < |all| ensures read[i].name == encode(files[n].name) <==> all[i].name == all[n + 1].name {}
  }
}
