/**
 The line automaton of agentos_dashboard/services/governance.py that renders a document body:
 fenced code, headings, bullet lists and paragraphs. How a line is classified and how inline text
 becomes HTML are given.
 */
module GovernanceRenderer {
  import opened Support

  datatype Kind = Fence | Heading(level: nat, title: string) | Blank | Bullet(item: string) | Plain(text: string)

  /** A raw line with what the patterns make of it outside a code block. */
  datatype Line = Line(raw: string, kind: Kind)

  datatype Block =
    | Code(lines: seq<string>)
    | HeadingBlock(level: nat, title: string)
    | OpenList
    | CloseList
    | Item(text: string)
    | Paragraph(lines: seq<string>)

  // ---- What is to be conserved ----

  /** One piece of content. */
  datatype Piece =
    | CodeLine(raw: string) | Title(level: nat, title: string) | ListItem(text: string) | TextLine(text: string)

  /** The content of the lines, in input order; inCode says whether they begin inside a fence. */
  function Content(lines: seq<Line>, inCode: bool): seq<Piece>
    decreases |lines|
  {
    if lines == [] then []
    else
      var front, last := lines[..|lines| - 1], lines[|lines| - 1];
      var before := Content(front, inCode);
      before + Taken(last, EndsInCode(front, inCode))
  }

  /** What one line holds. */
  function Taken(line: Line, inCode: bool): seq<Piece> {
    if line.kind.Fence? then []
    else if inCode then [CodeLine(line.raw)]
    else
      match line.kind
      case Heading(level, title) => [Title(level, title)]
      case Bullet(item) => [ListItem(item)]
      case Plain(text) => [TextLine(text)]
      case _ => []
  }

  /** Every fence line toggles. */
  function EndsInCode(lines: seq<Line>, inCode: bool): bool {
    if lines == [] then inCode
    else EndsInCode(lines[..|lines| - 1], inCode) != lines[|lines| - 1].kind.Fence?
  }

  function CodePieces(lines: seq<string>): seq<Piece> {
    seq(|lines|, i requires 0 <= i < |lines| => CodeLine(lines[i]))
  }

  function TextPieces(lines: seq<string>): seq<Piece> {
    seq(|lines|, i requires 0 <= i < |lines| => TextLine(lines[i]))
  }

  function BlockContent(b: Block): seq<Piece> {
    match b
    case Code(lines) => CodePieces(lines)
    case HeadingBlock(level, title) => [Title(level, title)]
    case Item(text) => [ListItem(text)]
    case Paragraph(lines) => TextPieces(lines)
    case _ => []
  }

  function Rendered(blocks: seq<Block>): seq<Piece> {
    if blocks == [] then []
    else Rendered(blocks[..|blocks| - 1]) + BlockContent(blocks[|blocks| - 1])
  }

  // ---- Well-nested lists ----

  /** A list is open after these blocks. */
  predicate ListOpen(blocks: seq<Block>) {
    blocks != [] &&
    match blocks[|blocks| - 1]
    case OpenList => true
    case CloseList => false
    case _ => ListOpen(blocks[..|blocks| - 1])
  }

  /** Lists are never nested, items lie inside a list and every other block outside one. */
  predicate WellNested(blocks: seq<Block>) {
    blocks == [] ||
    var front := blocks[..|blocks| - 1];
    && WellNested(front)
    && match blocks[|blocks| - 1]
       case Item(_) => ListOpen(front)
       case CloseList => ListOpen(front)
       case _ => !ListOpen(front)
  }

  function Count(blocks: seq<Block>, b: Block): nat {
    if blocks == [] then 0
    else Count(blocks[..|blocks| - 1], b) + if blocks[|blocks| - 1] == b then 1 else 0
  }

  /** In a well-nested rendering with no list left open, opening and closing tags balance. */
  lemma {:induction false} TagsBalance(blocks: seq<Block>)
    requires WellNested(blocks)
    ensures Count(blocks, OpenList) == Count(blocks, CloseList) + if ListOpen(blocks) then 1 else 0
  {
    if blocks != [] {
      TagsBalance(blocks[..|blocks| - 1]);
    }
  }

  lemma RenderedSnoc(blocks: seq<Block>, b: Block)
    ensures Rendered(blocks + [b]) == Rendered(blocks) + BlockContent(b)
    ensures ListOpen(blocks + [b]) <==> (b.OpenList? || (!b.CloseList? && ListOpen(blocks)))
    ensures WellNested(blocks + [b]) <==>
      WellNested(blocks) && (if b.Item? || b.CloseList? then ListOpen(blocks) else !ListOpen(blocks))
  {
    assert (blocks + [b])[..|blocks|] == blocks;
  }

  // ---- What a body should become ----

  /** How many lines there are before the first fence. */
  function FenceAt(lines: seq<Line>): (n: nat)
    ensures n <= |lines|
  {
    if lines == [] || lines[0].kind.Fence? then 0 else 1 + FenceAt(lines[1..])
  }

  /** How many bullets, or how many lines of text, there are in front. */
  function Run(lines: seq<Line>, bullets: bool): (n: nat)
    ensures n <= |lines|
  {
    if lines == [] || (if bullets then !lines[0].kind.Bullet? else !lines[0].kind.Plain?) then 0
    else 1 + Run(lines[1..], bullets)
  }

  function Raws(lines: seq<Line>): seq<string> {
    seq(|lines|, i requires 0 <= i < |lines| => lines[i].raw)
  }

  function TextOf(line: Line): string {
    match line.kind
    case Plain(text) => text
    case Bullet(item) => item
    case _ => line.raw
  }

  function Texts(lines: seq<Line>): seq<string> {
    seq(|lines|, i requires 0 <= i < |lines| => TextOf(lines[i]))
  }

  function Items(lines: seq<Line>): seq<Block> {
    seq(|lines|, i requires 0 <= i < |lines| => Item(TextOf(lines[i])))
  }

  function Before(blocks: seq<Block>, rest: Option<seq<Block>>): Option<seq<Block>> {
    if rest.Some? then Some(blocks + rest.value) else None
  }

  /**
   A body by its runs: from fence to fence one block of code, every heading for itself, every longest
   run of bullets one list and every longest run of text lines one paragraph; blank lines only separate.
   */
  function Document(lines: seq<Line>): Option<seq<Block>>
    decreases |lines|
  {
    if lines == [] then Some([])
    else
      match lines[0].kind
      case Fence =>
        var n := FenceAt(lines[1..]);
        if n == |lines| - 1 then None else Before([Code(Raws(lines[1..n + 1]))], Document(lines[n + 2..]))
      case Heading(level, title) => Before([HeadingBlock(level, title)], Document(lines[1..]))
      case Blank => Document(lines[1..])
      case Bullet(_) =>
        var n := Run(lines, true);
        Before([OpenList] + Items(lines[..n]) + [CloseList], Document(lines[n..]))
      case Plain(_) =>
        var n := Run(lines, false);
        Before([Paragraph(Texts(lines[..n]))], Document(lines[n..]))
  }

  function Closing(inList: bool): seq<Block> {
    if inList then [CloseList] else []
  }

  /** What ends with the open list and the open paragraph. */
  function Flushed(paragraph: seq<string>, inList: bool): seq<Block> {
    Closing(inList) + if paragraph == [] then [] else [Paragraph(paragraph)]
  }

  /** What is still to come outside a fence when these lines are read on. */
  function Outside(paragraph: seq<string>, inList: bool, rest: seq<Line>): Option<seq<Block>> {
    if paragraph != [] then
      var n := Run(rest, false);
      Before(Flushed(paragraph + Texts(rest[..n]), inList), Document(rest[n..]))
    else if inList && rest != [] && rest[0].kind.Bullet? then
      var n := Run(rest, true);
      Before(Items(rest[..n]) + [CloseList], Document(rest[n..]))
    else Before(Closing(inList), Document(rest))
  }

  /** The same inside one. */
  function Inside(codeLines: seq<string>, rest: seq<Line>): Option<seq<Block>> {
    var n := FenceAt(rest);
    if n == |rest| then None else Before([Code(codeLines + Raws(rest[..n]))], Document(rest[n + 1..]))
  }

  lemma BeforeBefore(a: seq<Block>, b: seq<Block>, rest: Option<seq<Block>>)
    ensures Before(a, Before(b, rest)) == Before(a + b, rest)
    ensures Before([], rest) == rest
  {
    if rest.Some? {
      Associative(a, b, rest.value);
      assert [] + rest.value == rest.value;
    }
  }

  /** The end of the lines, and any line but a bullet or text, ends what is open. */
  lemma FlushEnds(paragraph: seq<string>, inList: bool, lines: seq<Line>)
    requires lines == [] || lines[0].kind.Fence? || lines[0].kind.Heading? || lines[0].kind.Blank?
             || (lines[0].kind.Bullet? && paragraph != [])
    ensures Outside(paragraph, inList, lines) == Before(Flushed(paragraph, inList), Document(lines))
  {
    assert lines[..0] == [] && lines[0..] == lines && Texts(lines[..0]) == [];
    assert paragraph + [] == paragraph && Closing(inList) + [] == Closing(inList);
  }

  lemma FenceOpens(line: Line, rest: seq<Line>)
    requires line.kind.Fence?
    ensures Document([line] + rest) == Inside([], rest)
  {
    var lines := [line] + rest;
    var n := FenceAt(rest);
    assert lines[1..] == rest && lines[1..n + 1] == rest[..n] && [] + Raws(rest[..n]) == Raws(rest[..n]);
    assert n < |rest| ==> lines[n + 2..] == rest[n + 1..];
  }

  lemma FenceCloses(codeLines: seq<string>, line: Line, rest: seq<Line>)
    requires line.kind.Fence?
    ensures Inside(codeLines, [line] + rest) == Before([Code(codeLines)], Document(rest))
  {
    var lines := [line] + rest;
    assert lines[..0] == [] && Raws(lines[..0]) == [] && lines[1..] == rest && codeLines + [] == codeLines;
  }

  lemma CodeIsTaken(codeLines: seq<string>, line: Line, rest: seq<Line>)
    requires !line.kind.Fence?
    ensures Inside(codeLines, [line] + rest) == Inside(codeLines + [line.raw], rest)
  {
    var lines := [line] + rest;
    var n := FenceAt(rest);
    assert lines[1..] == rest && FenceAt(lines) == n + 1;
    assert Raws(lines[..n + 1]) == [line.raw] + Raws(rest[..n]);
    Associative(codeLines, [line.raw], Raws(rest[..n]));
    assert lines[n + 1..] == rest[n..];
    assert n < |rest| ==> lines[n + 2..] == rest[n + 1..];
  }

  lemma TextsCons(line: Line, rest: seq<Line>)
    ensures Texts([line] + rest) == [TextOf(line)] + Texts(rest)
    ensures Items([line] + rest) == [Item(TextOf(line))] + Items(rest)
  {
  }

  lemma RunGrows(line: Line, rest: seq<Line>, bullets: bool)
    requires if bullets then line.kind.Bullet? else line.kind.Plain?
    ensures
      var (lines, n) := ([line] + rest, Run(rest, bullets));
      && Run(lines, bullets) == n + 1 && lines[n + 1..] == rest[n..]
      && Texts(lines[..n + 1]) == [TextOf(line)] + Texts(rest[..n])
      && Items(lines[..n + 1]) == [Item(TextOf(line))] + Items(rest[..n])
  {
    var lines := [line] + rest;
    var n := Run(rest, bullets);
    assert lines[1..] == rest;
    assert lines[..n + 1] == [line] + rest[..n] && lines[n + 1..] == rest[n..];
    TextsCons(line, rest[..n]);
  }

  lemma RunOfText(line: Line, rest: seq<Line>)
    requires line.kind.Plain?
    ensures
      var (lines, n) := ([line] + rest, Run(rest, false));
      Document(lines) == Before([Paragraph([line.kind.text] + Texts(rest[..n]))], Document(rest[n..]))
  {
    RunGrows(line, rest, false);
  }

  lemma TextIsTaken(paragraph: seq<string>, inList: bool, line: Line, rest: seq<Line>)
    requires line.kind.Plain?
    ensures Outside(paragraph, inList, [line] + rest) == Outside(paragraph + [line.kind.text], inList, rest)
  {
    var lines, n := [line] + rest, Run(rest, false);
    var texts := Texts(rest[..n]);
    RunGrows(line, rest, false);
    RunOfText(line, rest);
    Associative(paragraph, [line.kind.text], texts);
    if paragraph == [] {
      assert paragraph + ([line.kind.text] + texts) == [line.kind.text] + texts;
      BeforeBefore(Closing(inList), [Paragraph([line.kind.text] + texts)], Document(rest[n..]));
      assert Outside(paragraph, inList, lines) == Before(Closing(inList), Document(lines));
    } else {
      assert Outside(paragraph, inList, lines)
          == Before(Flushed(paragraph + ([line.kind.text] + texts), inList), Document(rest[n..]));
    }
  }

  lemma RunOfBullets(line: Line, rest: seq<Line>)
    requires line.kind.Bullet?
    ensures
      var (lines, n) := ([line] + rest, Run(rest, true));
      var items := [Item(line.kind.item)] + Items(rest[..n]);
      && Document(lines) == Before([OpenList] + items + [CloseList], Document(rest[n..]))
      && Outside([], true, lines) == Before(items + [CloseList], Document(rest[n..]))
  {
    RunGrows(line, rest, true);
  }

  lemma ListJoins(item: Block, items: seq<Block>, rest: Option<seq<Block>>)
    ensures Before([item] + items + [CloseList], rest) == Before([item], Before(items + [CloseList], rest))
    ensures Before([OpenList] + ([item] + items) + [CloseList], rest)
         == Before([OpenList, item], Before(items + [CloseList], rest))
  {
    BeforeBefore([item], items + [CloseList], rest);
    BeforeBefore([OpenList, item], items + [CloseList], rest);
    assert [item] + items + [CloseList] == [item] + (items + [CloseList]);
    assert [OpenList] + ([item] + items) + [CloseList] == [OpenList, item] + (items + [CloseList]);
  }

  lemma BulletIsTaken(line: Line, rest: seq<Line>)
    requires line.kind.Bullet?
    ensures Outside([], true, [line] + rest) == Before([Item(line.kind.item)], Outside([], true, rest))
    ensures Document([line] + rest) == Before([OpenList, Item(line.kind.item)], Outside([], true, rest))
  {
    var n := Run(rest, true);
    RunOfBullets(line, rest);
    ListGoesOn(rest);
    ListJoins(Item(line.kind.item), Items(rest[..n]), Document(rest[n..]));
  }

  lemma ListGoesOn(rest: seq<Line>)
    ensures var n := Run(rest, true);
      Outside([], true, rest) == Before(Items(rest[..n]) + [CloseList], Document(rest[n..]))
  {
    if rest == [] || !rest[0].kind.Bullet? {
      assert rest[..0] == [] && Items(rest[..0]) + [CloseList] == [CloseList] && rest[0..] == rest;
    }
  }

  // What a line leaves, outside a fence

  lemma FenceGoesOn(blocks: seq<Block>, paragraph: seq<string>, inList: bool, line: Line, rest: seq<Line>)
    requires line.kind.Fence?
    ensures Before(blocks, Outside(paragraph, inList, [line] + rest))
         == Before(blocks + Flushed(paragraph, inList), Inside([], rest))
  {
    FlushEnds(paragraph, inList, [line] + rest);
    FenceOpens(line, rest);
    BeforeBefore(blocks, Flushed(paragraph, inList), Inside([], rest));
  }

  lemma HeadingGoesOn(blocks: seq<Block>, paragraph: seq<string>, inList: bool, line: Line, rest: seq<Line>)
    requires line.kind.Heading?
    ensures Before(blocks, Outside(paragraph, inList, [line] + rest))
         == Before(
              blocks + Flushed(paragraph, inList) + [HeadingBlock(line.kind.level, line.kind.title)],
              Outside([], false, rest))
  {
    var heading := HeadingBlock(line.kind.level, line.kind.title);
    FlushEnds(paragraph, inList, [line] + rest);
    assert ([line] + rest)[1..] == rest;
    assert Document([line] + rest) == Before([heading], Document(rest));
    BeforeBefore(blocks, Flushed(paragraph, inList), Document([line] + rest));
    BeforeBefore(blocks + Flushed(paragraph, inList), [heading], Document(rest));
    NothingOpen(rest);
  }

  lemma BlankGoesOn(blocks: seq<Block>, paragraph: seq<string>, inList: bool, line: Line, rest: seq<Line>)
    requires line.kind.Blank?
    ensures Before(blocks, Outside(paragraph, inList, [line] + rest))
         == Before(blocks + Flushed(paragraph, inList), Outside([], false, rest))
  {
    FlushEnds(paragraph, inList, [line] + rest);
    assert ([line] + rest)[1..] == rest;
    BeforeBefore(blocks, Flushed(paragraph, inList), Document(rest));
    NothingOpen(rest);
  }

  lemma CodeEnds(blocks: seq<Block>, codeLines: seq<string>, line: Line, rest: seq<Line>)
    requires line.kind.Fence?
    ensures Before(blocks, Inside(codeLines, [line] + rest))
         == Before(blocks + [Code(codeLines)], Outside([], false, rest))
  {
    FenceCloses(codeLines, line, rest);
    BeforeBefore(blocks, [Code(codeLines)], Document(rest));
    NothingOpen(rest);
  }

  lemma NothingOpen(rest: seq<Line>)
    ensures Outside([], false, rest) == Document(rest)
  {
    BeforeBefore([], [], Document(rest));
  }

  lemma BulletGoesOn(blocks: seq<Block>, paragraph: seq<string>, inList: bool, line: Line, rest: seq<Line>)
    requires line.kind.Bullet?
    ensures
      var item := Item(line.kind.item);
      var added :=
        if paragraph != [] then Flushed(paragraph, inList) + [OpenList, item]
        else if inList then [item] else [OpenList, item];
      Before(blocks, Outside(paragraph, inList, [line] + rest)) == Before(blocks + added, Outside([], true, rest))
  {
    var item := Item(line.kind.item);
    BulletIsTaken(line, rest);
    if paragraph != [] {
      FlushEnds(paragraph, inList, [line] + rest);
      BeforeBefore(Flushed(paragraph, inList), [OpenList, item], Outside([], true, rest));
      BeforeBefore(blocks, Flushed(paragraph, inList) + [OpenList, item], Outside([], true, rest));
    } else if inList {
      BeforeBefore(blocks, [item], Outside([], true, rest));
    } else {
      NothingOpen([line] + rest);
      BeforeBefore(blocks, [OpenList, item], Outside([], true, rest));
    }
  }

  // ---- The automaton ----

  class Renderer {
    var blocks: seq<Block>
    var paragraph: seq<string>
    var codeLines: seq<string>
    var inCode: bool
    var inList: bool

    constructor ()
      ensures Valid() && Held() == [] && !inCode && blocks == [] && paragraph == [] && !inList
    {
      blocks, paragraph, codeLines, inCode, inList := [], [], [], false, false;
    }

    /** Inside a fence nothing else is pending; outside one no code is. */
    ghost predicate Valid()
      reads this
    {
      && WellNested(blocks) && (inList <==> ListOpen(blocks))
      && (inCode ==> paragraph == [] && !inList)
      && (!inCode ==> codeLines == [])
    }

    /** All content taken in so far: rendered, then pending. */
    ghost function Held(): seq<Piece>
      reads this
    {
      Rendered(blocks) + CodePieces(codeLines) + TextPieces(paragraph)
    }

    method Emit(b: Block)
      requires Valid() && (if b.Item? || b.CloseList? then inList else !inList)
      requires !b.OpenList? && !b.CloseList?
      modifies this`blocks
      ensures WellNested(blocks) && (inList <==> ListOpen(blocks))
      ensures Rendered(blocks) == Rendered(old(blocks)) + BlockContent(b)
      ensures blocks == old(blocks) + [b]
    {
      RenderedSnoc(blocks, b);
      blocks := blocks + [b];
    }

    method CloseOpenList()
      requires Valid()
      modifies this`blocks, this`inList
      ensures Valid() && !inList && Held() == old(Held())
      ensures blocks == old(blocks) + Closing(old(inList))
    {
      if inList {
        RenderedSnoc(blocks, CloseList);
        blocks := blocks + [CloseList];
        inList := false;
      }
    }

    /** Outside a fence, what is held is what has been rendered and the open paragraph. */
    lemma PendingText()
      requires codeLines == []
      ensures Held() == Rendered(blocks) + TextPieces(paragraph)
      ensures paragraph == [] ==> Held() == Rendered(blocks)
    {
      assert Rendered(blocks) + CodePieces(codeLines) == Rendered(blocks);
    }

    method FlushParagraph()
      requires Valid() && !inCode
      modifies this`blocks, this`inList, this`paragraph
      ensures Valid() && !inList && paragraph == [] && Held() == old(Held())
      ensures blocks == old(blocks) + Flushed(old(paragraph), old(inList))
    {
      CloseOpenList();
      if paragraph != [] {
        PendingText();
        Emit(Paragraph(paragraph));
        paragraph := [];
        PendingText();
      }
    }

    method TakeFence()
      requires Valid()
      modifies this
      ensures Valid() && inCode == !old(inCode) && Held() == old(Held())
      ensures paragraph == [] && codeLines == [] && !inList
      ensures blocks ==
        old(blocks) + if old(inCode) then [Code(old(codeLines))] else Flushed(old(paragraph), old(inList))
    {
      if inCode {
        Emit(Code(codeLines));
        codeLines := [];
        inCode := false;
      } else {
        FlushParagraph();
        inCode := true;
      }
    }

    method TakeHeading(level: nat, title: string)
      requires Valid() && !inCode
      modifies this`blocks, this`inList, this`paragraph
      ensures Valid() && Held() == old(Held()) + [Title(level, title)]
      ensures paragraph == [] && !inList
      ensures blocks == old(blocks) + Flushed(old(paragraph), old(inList)) + [HeadingBlock(level, title)]
    {
      FlushParagraph();
      PendingText();
      Emit(HeadingBlock(level, title));
      PendingText();
    }

    method TakePlain(text: string)
      requires Valid() && !inCode
      modifies this`paragraph
      ensures Valid() && Held() == old(Held()) + [TextLine(text)]
      ensures paragraph == old(paragraph) + [text]
    {
      assert TextPieces(paragraph + [text]) == TextPieces(paragraph) + [TextLine(text)];
      paragraph := paragraph + [text];
    }

    /** A list is open afterwards, and no paragraph. */
    method OpenAList()
      requires Valid() && !inCode
      modifies this`blocks, this`inList, this`paragraph
      ensures Valid() && inList && paragraph == [] && Held() == old(Held())
      ensures blocks == old(blocks) +
        (if old(paragraph) != [] then Flushed(old(paragraph), old(inList)) + [OpenList]
         else if old(inList) then [] else [OpenList])
    {
      if paragraph != [] {
        FlushParagraph();
      }
      if !inList {
        RenderedSnoc(blocks, OpenList);
        blocks := blocks + [OpenList];
        inList := true;
      }
    }

    method TakeBullet(item: string)
      requires Valid() && !inCode
      modifies this`blocks, this`inList, this`paragraph
      ensures Valid() && Held() == old(Held()) + [ListItem(item)]
      ensures paragraph == [] && inList
      ensures blocks == old(blocks) +
        (if old(paragraph) != [] then Flushed(old(paragraph), old(inList)) + [OpenList, Item(item)]
         else if old(inList) then [Item(item)] else [OpenList, Item(item)])
    {
      OpenAList();
      PendingText();
      Emit(Item(item));
      PendingText();
    }

    /** The whole document, if the rest is read on from here. */
    ghost function Promised(rest: seq<Line>): Option<seq<Block>>
      reads this
    {
      Before(blocks, if inCode then Inside(codeLines, rest) else Outside(paragraph, inList, rest))
    }

    lemma Begins(lines: seq<Line>)
      requires blocks == [] && paragraph == [] && !inCode && !inList
      ensures Promised(lines[0..]) == Document(lines)
    {
      NothingOpen(lines);
      BeforeBefore([], [], Document(lines));
      assert lines[0..] == lines;
    }

    method TakeLine(line: Line, ghost rest: seq<Line>)
      requires Valid()
      modifies this
      ensures Promised(rest) == old(Promised([line] + rest))
      ensures Valid() && inCode == (old(inCode) != line.kind.Fence?)
      ensures Held() == old(Held()) + Taken(line, old(inCode))
    {
      if inCode {
        if line.kind.Fence? {
          CodeEnds(blocks, codeLines, line, rest);
          TakeFence();
        } else {
          CodeIsTaken(codeLines, line, rest);
          assert CodePieces(codeLines + [line.raw]) == CodePieces(codeLines) + [CodeLine(line.raw)];
          codeLines := codeLines + [line.raw];
        }
      } else {
        TakeOutside(line, rest);
      }
    }

    method TakeOutside(line: Line, ghost rest: seq<Line>)
      requires Valid() && !inCode
      modifies this
      ensures Promised(rest) == old(Promised([line] + rest))
      ensures Valid() && inCode == line.kind.Fence?
      ensures Held() == old(Held()) + Taken(line, false)
    {
      match line.kind {
        case Fence =>
          FenceGoesOn(blocks, paragraph, inList, line, rest);
          TakeFence();
        case Heading(level, title) =>
          HeadingGoesOn(blocks, paragraph, inList, line, rest);
          TakeHeading(level, title);
        case Blank =>
          BlankGoesOn(blocks, paragraph, inList, line, rest);
          FlushParagraph();
        case Bullet(item) =>
          BulletGoesOn(blocks, paragraph, inList, line, rest);
          TakeBullet(item);
        case Plain(text) =>
          TextIsTaken(paragraph, inList, line, rest);
          TakePlain(text);
      }
    }

    /** The end of the body. */
    method Finish() returns (r: Option<seq<Block>>)
      requires Valid()
      modifies this
      ensures r == old(Promised([])) && (r.None? <==> old(inCode))
      ensures r.Some? ==> Rendered(r.value) == old(Held()) && WellNested(r.value) && !ListOpen(r.value)
    {
      if inCode {
        assert Inside(codeLines, []) == None;
        return None;
      }
      FlushEnds(paragraph, inList, []);
      BeforeBefore(blocks, Flushed(paragraph, inList), Some([]));
      FlushParagraph();
      PendingText();
      assert blocks + [] == blocks;
      r := Some(blocks);
    }
  }

  lemma CutAt(lines: seq<Line>, i: nat)
    requires i < |lines|
    ensures lines[..i + 1] == lines[..i] + [lines[i]] && lines[i..] == [lines[i]] + lines[i + 1..]
  {
  }

  lemma ContentSnoc(lines: seq<Line>, line: Line)
    ensures EndsInCode(lines + [line], false) == (EndsInCode(lines, false) != line.kind.Fence?)
    ensures Content(lines + [line], false) == Content(lines, false) + Taken(line, EndsInCode(lines, false))
  {
    assert (lines + [line])[..|lines|] == lines;
  }

  /**
   Renders a whole body, as the document that its runs make up. It fails exactly when the fences are
   unbalanced; otherwise every piece of content appears once and in order, and the lists are well
   nested and all closed.
   */
  method RenderBody(lines: seq<Line>) returns (r: Option<seq<Block>>)
    ensures r == Document(lines)
    ensures r.None? <==> EndsInCode(lines, false)
    ensures r.Some? ==> Rendered(r.value) == Content(lines, false)
    ensures r.Some? ==> WellNested(r.value) && !ListOpen(r.value)
    ensures r.Some? ==> Count(r.value, OpenList) == Count(r.value, CloseList)
  {
    var renderer := new Renderer();
    var i := 0;
    renderer.Begins(lines);
    while i < |lines|
      invariant 0 <= i <= |lines| && fresh(renderer) && renderer.Valid()
      invariant renderer.Promised(lines[i..]) == Document(lines)
      invariant renderer.inCode == EndsInCode(lines[..i], false)
      invariant renderer.Held() == Content(lines[..i], false)
    {
      CutAt(lines, i);
      ContentSnoc(lines[..i], lines[i]);
      renderer.TakeLine(lines[i], lines[i + 1..]);
      i := i + 1;
    }
    assert lines[..i] == lines && lines[i..] == [];
    r := renderer.Finish();
    if r.Some? {
      TagsBalance(r.value);
    }
  }
}
