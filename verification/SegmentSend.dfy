/**
 send_message_segments: a list of segments becomes a list of sends. Text runs are joined, an image takes
 the rest of the message as its caption when nothing else is waiting to be said, and a quoted reply and
 the mentions go out with one text send.

 Text normalisation is a parameter. An absent quote or reply mention is the empty string.
 */
module SegmentSend {
  import opened Seqs

  datatype Kind = Image | Record | Video | Attachment

  datatype Segment = Text(text: string) | Media(kind: Kind, fileRef: string)

  datatype Send =
    | TextSend(text: string, quote: string, mentions: seq<string>, replyMention: string)
    | MediaSend(media: Segment, caption: string)

  /** Segments from (included) to until (excluded), and what is sent for them, if anything. */
  datatype Block = Block(from: nat, until: nat, send: Option<Send>)

  /** What still has to go out with a text send. */
  datatype Pending = Pending(quote: string, mentions: seq<string>, replyMention: string)

  const NothingPending := Pending("", [], "")

  function Join(segments: seq<Segment>): string {
    if segments == [] then ""
        else Join(segments[..|segments| - 1]) + (if Last(segments).Text? then Last(segments).text else "")
  }

  /** The texts of the segments, one by one; a media segment says nothing. */
  function Texts(segments: seq<Segment>): seq<string> {
    seq(|segments|, k requires 0 <= k < |segments| => if segments[k].Text? then segments[k].text else "")
  }

  /** The texts in the order of the segments, laid end to end. */
  function Spoken(segments: seq<Segment>): string {
    Flatten(Texts(segments))
  }

  lemma JoinOne(s: Segment)
    ensures Join([s]) == if s.Text? then s.text else ""
  {
    assert [s][..0] == [];
  }

  lemma {:induction false} JoinAppend(a: seq<Segment>, b: seq<Segment>)
    ensures Join(a + b) == Join(a) + Join(b)
  {
    if b == [] {
      assert a + b == a;
    } else {
      var front := b[..|b| - 1];
      assert (a + b)[..|a + b| - 1] == a + front;
      JoinAppend(a, front);
    }
  }

  lemma {:induction false} JoinIsSpoken(segments: seq<Segment>)
    ensures Join(segments) == Spoken(segments)
  {
    if segments != [] {
      var front, last := segments[..|segments| - 1], Last(segments);
      var text := if last.Text? then last.text else "";
      JoinIsSpoken(front);
      assert Texts(segments) == Texts(front) + [text];
      FlattenAppend(Texts(front), [text]);
      FlattenSingle(text);
    }
  }

  /** The index of the first media segment at or after i, or the end. */
  function RunEnd(segments: seq<Segment>, i: nat): (j: nat)
    requires i <= |segments|
    ensures i <= j <= |segments|
    ensures forall k :: i <= k < j ==> segments[k].Text?
    ensures j < |segments| ==> segments[j].Media?
    decreases |segments| - i
  {
    if i < |segments| && segments[i].Text? then RunEnd(segments, i + 1) else i
  }

  /** flush_text on the segments of a run. */
  function Flush(norm: string -> string, run: seq<Segment>, p: Pending, force: bool): Option<Send> {
    var text := norm(Join(run));
    if text == "" && !(force && p.quote != "") then None else Some(TextSend(text, p.quote, p.mentions, p.replyMention))
  }

  /** The flush before a media segment: forced, for the sake of a quote, only if there is no text at all. */
  function FlushBeforeMedia(norm: string -> string, run: seq<Segment>, p: Pending): Option<Send> {
    if run == [] && p.quote == "" then None else Flush(norm, run, p, run == [])
  }

  function After(sent: Option<Send>, p: Pending): Pending {
    if sent.None? then p else NothingPending
  }

  /** Whether the image at j takes all the segments behind it as its caption. */
  predicate TakesCaption(segments: seq<Segment>, j: nat, hadQuote: bool, left: Pending)
    requires j < |segments|
  {
    segments[j].Media? && segments[j].kind.Image? && !hadQuote && left.mentions == [] && left.replyMention == "" &&
    RunEnd(segments, j + 1) == |segments|
  }

  /** The media send at j, and the index behind the segments it covers. */
  function MediaBlock(norm: string -> string, segments: seq<Segment>, j: nat, hadQuote: bool, left: Pending): (b: Block)
    requires j < |segments|
    ensures b.from == j < b.until <= |segments|
  {
    if TakesCaption(segments, j, hadQuote, left)
    then Block(j, |segments|, Some(MediaSend(segments[j], norm(Join(segments[j + 1..])))))
    else Block(j, j + 1, Some(MediaSend(segments[j], "")))
  }

  /** The blocks of the segments from i on: run, media, run, media, ..., run. */
  function Plan(norm: string -> string, segments: seq<Segment>, i: nat, p: Pending): seq<Block>
    requires i <= |segments|
    decreases |segments| - i
  {
    var j := RunEnd(segments, i);
    var run := segments[i..j];
    if j == |segments| then [Block(i, j, Flush(norm, run, p, true))]
    else
      var text := Block(i, j, FlushBeforeMedia(norm, run, p));
      var left := After(text.send, p);
      var media := MediaBlock(norm, segments, j, p.quote != "", left);
      [text, media] + Plan(norm, segments, media.until, left)
  }

  function Sends(blocks: seq<Block>): seq<Send> {
    if blocks == [] then []
    else SendOf(blocks[0]) + Sends(blocks[1..])
  }

  function SendOf(b: Block): seq<Send> {
    if b.send.Some? then [b.send.value] else []
  }

  lemma PairSends(x: Block, y: Block, rest: seq<Block>)
    ensures Sends([x, y] + rest) == SendOf(x) + (SendOf(y) + Sends(rest))
  {
    var all := [x, y] + rest;
    assert all[1..] == [y] + rest;
    assert all[1..][1..] == rest;
    assert Sends(all[1..]) == SendOf(y) + Sends(rest);
  }

  // ---- what a plan is ----

  /** Blocks that follow each other from i to the end, each sending what its own segments say. */
  ghost predicate Tiles(norm: string -> string, segments: seq<Segment>, blocks: seq<Block>, i: nat)
    decreases |blocks|
  {
    if blocks == [] then i == |segments|
    else
      var b := blocks[0];
      && b.from == i <= b.until <= |segments|
      && Says(norm, segments, b)
      && Tiles(norm, segments, blocks[1..], b.until)
  }

  /**
   A block is a run of text that sends its texts end to end, normalised, and nothing only if that is blank;
   or one media segment, together with all the text behind it if that is its caption.
   */
  ghost predicate Says(norm: string -> string, segments: seq<Segment>, b: Block)
    requires b.from <= b.until <= |segments|
  {
    match b.send
    case None => OnlyText(segments[b.from..b.until]) &&
        (b.from == b.until || norm(Spoken(segments[b.from..b.until])) == "")
    case Some(TextSend(text, quote, _, _)) => OnlyText(segments[b.from..b.until]) &&
        text == norm(Spoken(segments[b.from..b.until])) && (text != "" || quote != "")
    case Some(MediaSend(media, caption)) =>
      && b.from < b.until && segments[b.from] == media && media.Media?
      && (b.until == b.from + 1 ==> caption == "" || caption == norm(""))
      && (b.until != b.from + 1 ==>
            && media.kind.Image? && b.until == |segments|
            && OnlyText(segments[b.from + 1..]) && caption == norm(Spoken(segments[b.from + 1..])))
  }

  predicate OnlyText(segments: seq<Segment>) {
    forall k :: 0 <= k < |segments| ==> segments[k].Text?
  }

  /** Every segment belongs to exactly one send or to a blank run, in the order of the input. */
  lemma {:induction false} PlanTiles(norm: string -> string, segments: seq<Segment>, i: nat, p: Pending)
    requires i <= |segments|
    ensures Tiles(norm, segments, Plan(norm, segments, i, p), i)
    decreases |segments| - i
  {
    var j := RunEnd(segments, i);
    TextSays(norm, segments, i, j, p);
    if j < |segments| {
      var text := Block(i, j, FlushBeforeMedia(norm, segments[i..j], p));
      var left := After(text.send, p);
      var media := MediaBlock(norm, segments, j, p.quote != "", left);
      PlanTiles(norm, segments, media.until, left);
      MediaSays(norm, segments, j, p.quote != "", left);
      TwoTiles(norm, segments, text, media, Plan(norm, segments, media.until, left));
    }
  }

  lemma TwoTiles(norm: string -> string, segments: seq<Segment>, x: Block, y: Block, rest: seq<Block>)
    requires x.from <= x.until == y.from <= y.until <= |segments|
    requires Says(norm, segments, x) && Says(norm, segments, y) && Tiles(norm, segments, rest, y.until)
    ensures Tiles(norm, segments, [x, y] + rest, x.from)
  {
    assert ([x, y] + rest)[1..] == [y] + rest;
    assert ([y] + rest)[1..] == rest;
  }

  lemma TextSays(norm: string -> string, segments: seq<Segment>, i: nat, j: nat, p: Pending)
    requires i <= j <= |segments| && OnlyText(segments[i..j])
    ensures Says(norm, segments, Block(i, j, FlushBeforeMedia(norm, segments[i..j], p)))
    ensures Says(norm, segments, Block(i, j, Flush(norm, segments[i..j], p, true)))
  {
    JoinIsSpoken(segments[i..j]);
  }

  lemma MediaSays(norm: string -> string, segments: seq<Segment>, j: nat, hadQuote: bool, left: Pending)
    requires j < |segments| && segments[j].Media?
    ensures Says(norm, segments, MediaBlock(norm, segments, j, hadQuote, left))
  {
    JoinIsSpoken(segments[j + 1..]);
    if j + 1 == |segments| {
      assert segments[j + 1..] == [];
    }
  }

  // ---- quotes and mentions ----

  function Quotes(sends: seq<Send>): seq<string> {
    if sends == [] then []
    else (if sends[0].TextSend? && sends[0].quote != "" then [sends[0].quote] else []) + Quotes(sends[1..])
  }

  /** The first text send carries everything pending; no other one carries anything. */
  predicate FirstTextCarries(sends: seq<Send>, p: Pending) {
    sends == [] ||
    (if sends[0].TextSend?
     then sends[0].quote == p.quote && sends[0].mentions == p.mentions && sends[0].replyMention == p.replyMention &&
          FirstTextCarries(sends[1..], NothingPending)
     else FirstTextCarries(sends[1..], p))
  }

  lemma CarriesOne(b: Block, rest: seq<Send>, p: Pending, left: Pending)
    requires b.send.Some? && b.send.value.TextSend? ==>
               b.send == Some(TextSend(b.send.value.text, p.quote, p.mentions, p.replyMention)) &&
                   left == NothingPending
    requires b.send.None? || b.send.value.MediaSend? ==> left == p
    requires FirstTextCarries(rest, left)
    ensures FirstTextCarries(SendOf(b) + rest, p)
    ensures Quotes(SendOf(b) + rest) ==
            (if b.send.Some? && b.send.value.TextSend? && p.quote != "" then [p.quote] else []) + Quotes(rest)
  {
    if b.send.Some? {
      assert (SendOf(b) + rest)[1..] == rest;
    } else {
      assert SendOf(b) + rest == rest;
    }
  }

  /**
   A given quote goes out with exactly one send, the first text send, and so do the mentions; blank text
   before it does not use it up.
   */
  lemma {:induction false} PlanCarries(norm: string -> string, segments: seq<Segment>, i: nat, p: Pending)
    requires i <= |segments|
    ensures var sends := Sends(Plan(norm, segments, i, p));
            && FirstTextCarries(sends, p)
            && Quotes(sends) == if p.quote != "" then [p.quote] else []
    decreases |segments| - i
  {
    var j := RunEnd(segments, i);
    var run := segments[i..j];
    if j < |segments| {
      var text := Block(i, j, FlushBeforeMedia(norm, run, p));
      var left := After(text.send, p);
      var media := MediaBlock(norm, segments, j, p.quote != "", left);
      var rest := Plan(norm, segments, media.until, left);
      PlanCarries(norm, segments, media.until, left);
      PairSends(text, media, rest);
      CarriesOne(media, Sends(rest), left, left);
      CarriesOne(text, SendOf(media) + Sends(rest), p, left);
    } else {
      var text := Block(i, j, Flush(norm, run, p, true));
      assert [text][1..] == [];
      CarriesOne(text, [], p, After(text.send, p));
      assert SendOf(text) + [] == Sends([text]);
    }
  }

  function TextSends(sends: seq<Send>): nat {
    if sends == [] then 0 else (if sends[0].TextSend? then 1 else 0) + TextSends(sends[1..])
  }

  /** How many sends mention somebody. */
  function Mentioning(sends: seq<Send>): nat {
    if sends == [] then 0
    else
      var names := sends[0].TextSend? && (sends[0].mentions != [] || sends[0].replyMention != "");
      (if names then 1 else 0) + Mentioning(sends[1..])
  }

  lemma {:induction false} NothingMentioned(sends: seq<Send>)
    requires FirstTextCarries(sends, NothingPending)
    ensures Mentioning(sends) == 0
  {
    if sends != [] {
      NothingMentioned(sends[1..]);
    }
  }

  lemma {:induction false} MentionedOnce(sends: seq<Send>, p: Pending)
    requires FirstTextCarries(sends, p) && (p.mentions != [] || p.replyMention != "")
    ensures Mentioning(sends) == if TextSends(sends) > 0 then 1 else 0
  {
    if sends != [] {
      if sends[0].TextSend? {
        NothingMentioned(sends[1..]);
      } else {
        MentionedOnce(sends[1..], p);
      }
    }
  }

  /**
   Some maximal run of text from i on has something to say. An empty run counts only at the end, where
   text is flushed in any case.
   */
  predicate Speaks(norm: string -> string, segments: seq<Segment>, i: nat)
    requires i <= |segments|
    decreases |segments| - i
  {
    var j := RunEnd(segments, i);
    ((i < j || j == |segments|) && norm(Join(segments[i..j])) != "")
    || (j < |segments| && Speaks(norm, segments, j + 1))
  }

  predicate SaysSomething(b: Block) {
    b.send.Some? && b.send.value.TextSend?
  }

  /** Some block sends text. */
  predicate HasText(blocks: seq<Block>) {
    exists b :: b in blocks && SaysSomething(b)
  }

  lemma HasTextFirst(blocks: seq<Block>)
    requires blocks != []
    ensures HasText(blocks) <==> SaysSomething(blocks[0]) || HasText(blocks[1..])
  {
    assert forall b :: b in blocks <==> b == blocks[0] || b in blocks[1..];
  }

  lemma TextSendsFirst(b: Block, rest: seq<Send>)
    ensures TextSends(SendOf(b) + rest) == (if SaysSomething(b) then 1 else 0) + TextSends(rest)
  {
    if b.send.Some? {
      assert (SendOf(b) + rest)[1..] == rest;
    } else {
      assert SendOf(b) + rest == rest;
    }
  }

  lemma {:induction false} TextBlocks(blocks: seq<Block>)
    ensures TextSends(Sends(blocks)) > 0 <==> HasText(blocks)
  {
    if blocks != [] {
      TextBlocks(blocks[1..]);
      HasTextFirst(blocks);
      TextSendsFirst(blocks[0], Sends(blocks[1..]));
    }
  }

  lemma HasTextTwo(x: Block, y: Block, rest: seq<Block>)
    ensures HasText([x, y] + rest) <==> SaysSomething(x) || SaysSomething(y) || HasText(rest)
  {
    assert forall b :: b in [x, y] + rest <==> b == x || b == y || b in rest;
  }

  /** What is flushed before the media segment behind the run from i on, if there is one. */
  function TextBefore(norm: string -> string, segments: seq<Segment>, i: nat, p: Pending): Option<Send>
    requires i <= |segments|
  {
    FlushBeforeMedia(norm, segments[i..RunEnd(segments, i)], p)
  }

  lemma PlanTextSends(norm: string -> string, segments: seq<Segment>, i: nat, p: Pending)
    requires i <= |segments| && RunEnd(segments, i) < |segments|
    ensures var text := TextBefore(norm, segments, i, p);
            var media := MediaBlock(norm, segments, RunEnd(segments, i), p.quote != "", After(text, p));
            HasText(Plan(norm, segments, i, p)) <==>
            text.Some? || HasText(Plan(norm, segments, media.until, After(text, p)))
  {
    var j := RunEnd(segments, i);
    var text := Block(i, j, TextBefore(norm, segments, i, p));
    var media := MediaBlock(norm, segments, j, p.quote != "", After(text.send, p));
    HasTextTwo(text, media, Plan(norm, segments, media.until, After(text.send, p)));
  }

  lemma LastTextSends(norm: string -> string, segments: seq<Segment>, i: nat, p: Pending)
    requires i <= |segments| && RunEnd(segments, i) == |segments|
    ensures HasText(Plan(norm, segments, i, p)) <==> p.quote != "" || Speaks(norm, segments, i)
  {
    var text := Block(i, |segments|, Flush(norm, segments[i..|segments|], p, true));
    assert text in [text];
  }

  /** While mentions are pending an image takes no caption. */
  lemma NoCaptionYet(norm: string -> string, segments: seq<Segment>, j: nat, hadQuote: bool, p: Pending)
    requires j < |segments| && (p.mentions != [] || p.replyMention != "")
    ensures MediaBlock(norm, segments, j, hadQuote, p).until == j + 1
  {
  }

  lemma TextBeforeWhen(norm: string -> string, segments: seq<Segment>, i: nat, p: Pending)
    requires i <= |segments|
    ensures var j := RunEnd(segments, i);
            TextBefore(norm, segments, i, p).Some?
            <==> if i == j then p.quote != "" else norm(Join(segments[i..j])) != ""
  {
    assert i == RunEnd(segments, i) <==> segments[i..RunEnd(segments, i)] == [];
  }

  lemma SpeaksNow(norm: string -> string, segments: seq<Segment>, i: nat, p: Pending)
    requires i <= |segments| && RunEnd(segments, i) < |segments| && TextBefore(norm, segments, i, p).Some?
    ensures HasText(Plan(norm, segments, i, p)) && (p.quote != "" || Speaks(norm, segments, i))
  {
    TextBeforeWhen(norm, segments, i, p);
    PlanTextSends(norm, segments, i, p);
  }

  lemma SilentRun(norm: string -> string, segments: seq<Segment>, i: nat, p: Pending)
    requires i <= |segments| && RunEnd(segments, i) < |segments| && TextBefore(norm, segments, i, p).None?
    ensures Speaks(norm, segments, i) <==> Speaks(norm, segments, RunEnd(segments, i) + 1)
  {
    TextBeforeWhen(norm, segments, i, p);
  }

  lemma SpeaksLater(norm: string -> string, segments: seq<Segment>, i: nat, p: Pending)
    requires i <= |segments| && RunEnd(segments, i) < |segments| && (p.mentions != [] || p.replyMention != "")
    requires TextBefore(norm, segments, i, p).None?
    ensures HasText(Plan(norm, segments, i, p)) <==> HasText(Plan(norm, segments, RunEnd(segments, i) + 1, p))
    ensures Speaks(norm, segments, i) <==> Speaks(norm, segments, RunEnd(segments, i) + 1)
  {
    SilentRun(norm, segments, i, p);
    NoCaptionYet(norm, segments, RunEnd(segments, i), p.quote != "", p);
    PlanTextSends(norm, segments, i, p);
  }

  /** With mentions pending, there is a text send exactly when there is a quote or some run speaks. */
  lemma {:induction false} SomeTextSend(norm: string -> string, segments: seq<Segment>, i: nat, p: Pending,
                                        blocks: seq<Block>, speaks: bool)
    requires i <= |segments| && (p.mentions != [] || p.replyMention != "")
    requires blocks == Plan(norm, segments, i, p) && speaks == Speaks(norm, segments, i)
    ensures HasText(blocks) <==> p.quote != "" || speaks
    decreases |segments| - i
  {
    var next := RunEnd(segments, i) + 1;
    if next > |segments| {
      LastTextSends(norm, segments, i, p);
    } else if TextBefore(norm, segments, i, p).Some? {
      SpeaksNow(norm, segments, i, p);
    } else {
      SpeaksLater(norm, segments, i, p);
      SomeTextSend(norm, segments, next, p, Plan(norm, segments, next, p), Speaks(norm, segments, next));
    }
  }

  /**
   Pending mentions go out with exactly one send if there is a quote or some maximal run of text, the
   possibly empty last one included, is not blank; otherwise they are lost.
   */
  lemma MentionsAtMostOnce(norm: string -> string, segments: seq<Segment>, p: Pending)
    requires p.mentions != [] || p.replyMention != ""
    ensures Mentioning(Sends(Plan(norm, segments, 0, p)))
            == if p.quote != "" || Speaks(norm, segments, 0) then 1 else 0
  {
    PlanCarries(norm, segments, 0, p);
    MentionedOnce(Sends(Plan(norm, segments, 0, p)), p);
    SomeTextSend(norm, segments, 0, p, Plan(norm, segments, 0, p), Speaks(norm, segments, 0));
    TextBlocks(Plan(norm, segments, 0, p));
  }

  /** An image alone, with a mention and no quote: the image is all that is sent. */
  lemma MentionOfImageLost(norm: string -> string, fileRef: string)
    requires norm("") == ""
    ensures Sends(Plan(norm, [Media(Image, fileRef)], 0, Pending("", ["bob"], "")))
            == [MediaSend(Media(Image, fileRef), "")]
  {
    var image, p := Media(Image, fileRef), Pending("", ["bob"], "");
    var text, media, end := Block(0, 0, None), Block(0, 1, Some(MediaSend(image, ""))), Block(1, 1, None);
    assert Plan(norm, [image], 1, p) == [end];
    assert Plan(norm, [image], 0, p) == [text, media] + [end];
    PairSends(text, media, [end]);
    assert [end][1..] == [];
  }

  /** What is still pending once these blocks have gone out: nothing, after the first text send. */
  function StillPending(blocks: seq<Block>, p: Pending): Pending {
    if blocks == [] then p
    else StillPending(blocks[1..], if blocks[0].send.Some? && blocks[0].send.value.TextSend? then NothingPending else p)
  }

  /** The media block at b takes all the text behind it as its caption. */
  ghost predicate MayCaption(segments: seq<Segment>, blocks: seq<Block>, b: nat, p: Pending)
    requires 0 < b < |blocks| && blocks[b].from < |segments|
  {
    var left := StillPending(blocks[..b], p);
    && segments[blocks[b].from].Media? && segments[blocks[b].from].kind.Image?
    && OnlyText(segments[blocks[b].from + 1..])
    && StillPending(blocks[..b - 1], p).quote == "" && left.mentions == [] && left.replyMention == ""
  }

  lemma PendingAfterTwo(x: Block, y: Block, rest: seq<Block>, p: Pending, n: nat)
    requires y.send.Some? && y.send.value.MediaSend? && n <= |rest|
    requires x.send.Some? ==> x.send.value.TextSend?
    ensures var blocks := [x, y] + rest;
            && StillPending(blocks[..n + 2], p) == StillPending(rest[..n], After(x.send, p))
            && StillPending(blocks[..1], p) == After(x.send, p) && StillPending(blocks[..0], p) == p
  {
    var blocks := [x, y] + rest;
    assert blocks[..n + 2][1..] == [y] + rest[..n];
    assert ([y] + rest[..n])[1..] == rest[..n];
    assert blocks[..1][1..] == [];
  }

  lemma {:induction false} RunToEnd(segments: seq<Segment>, i: nat)
    requires i <= |segments|
    ensures RunEnd(segments, i) == |segments| <==> OnlyText(segments[i..])
    decreases |segments| - i
  {
    if i < |segments| {
      assert segments[i..][0] == segments[i];
      assert segments[i..][1..] == segments[i + 1..];
      if segments[i].Text? {
        RunToEnd(segments, i + 1);
        assert forall k :: 0 < k < |segments[i..]| ==> segments[i..][k] == segments[i + 1..][k - 1];
      }
    }
  }

  lemma FirstCaption(norm: string -> string, segments: seq<Segment>, i: nat, p: Pending, rest: seq<Block>)
    requires i <= |segments| && RunEnd(segments, i) < |segments|
    ensures var j := RunEnd(segments, i);
            var text := Block(i, j, FlushBeforeMedia(norm, segments[i..j], p));
            var media := MediaBlock(norm, segments, j, p.quote != "", After(text.send, p));
            media.until == |segments| <==> j + 1 == |segments| || MayCaption(segments, [text, media] + rest, 1, p)
  {
    var j := RunEnd(segments, i);
    var text := Block(i, j, FlushBeforeMedia(norm, segments[i..j], p));
    var media := MediaBlock(norm, segments, j, p.quote != "", After(text.send, p));
    PendingAfterTwo(text, media, rest, p, 0);
    RunToEnd(segments, j + 1);
  }

  lemma LaterCaption(segments: seq<Segment>, x: Block, y: Block, rest: seq<Block>, p: Pending, b: nat)
    requires y.send.Some? && y.send.value.MediaSend? && (x.send.Some? ==> x.send.value.TextSend?)
    requires 0 < b < |rest| && rest[b].from < |segments|
    ensures MayCaption(segments, [x, y] + rest, b + 2, p) <==> MayCaption(segments, rest, b, After(x.send, p))
  {
    PendingAfterTwo(x, y, rest, p, b);
    PendingAfterTwo(x, y, rest, p, b - 1);
  }

  /**
   An image takes the text behind it as caption if and only if there is nothing else behind it, no quote
   was pending before the text in front of it went out, and no mentions are pending after that.
   */
  lemma {:induction false} CaptionRule(norm: string -> string, segments: seq<Segment>, i: nat, p: Pending, b: nat)
    requires i <= |segments|
    requires b < |Plan(norm, segments, i, p)| && Plan(norm, segments, i, p)[b].send.Some?
    requires Plan(norm, segments, i, p)[b].send.value.MediaSend?
    ensures var blocks := Plan(norm, segments, i, p);
            && 0 < b && blocks[b].from + 1 <= |segments|
            && (blocks[b].until == |segments| <==>
                blocks[b].from + 1 == |segments| || MayCaption(segments, blocks, b, p))
    decreases |segments| - i
  {
    var j := RunEnd(segments, i);
    if j < |segments| {
      var text := Block(i, j, FlushBeforeMedia(norm, segments[i..j], p));
      var left := After(text.send, p);
      var media := MediaBlock(norm, segments, j, p.quote != "", left);
      var rest := Plan(norm, segments, media.until, left);
      if b == 1 {
        FirstCaption(norm, segments, i, p, rest);
      } else {
        assert ([text, media] + rest)[b] == rest[b - 2];
        CaptionRule(norm, segments, media.until, left, b - 2);
        LaterCaption(segments, text, media, rest, p, b - 2);
      }
    }
  }

  // ---- sending ----

  /**
   What became of one send: the server returned a message that got a OneBot id, or one that could not
   get one; it returned nothing; or the call raised.
   */
  datatype Outcome = Mapped(id: int) | Unmapped | Nothing | Raised

  /** A call to the server: the thread it goes to ("" for none) and what is sent. */
  datatype Call = Call(thread: string, send: Send)

  /** A media segment without a file never reaches the server. */
  predicate Empty(s: Send) {
    s.MediaSend? && s.media.Media? && s.media.fileRef == ""
  }

  /** What comes of a send when n calls have been made before it. */
  function Result(answer: nat -> Outcome, n: nat, s: Send): Outcome {
    if Empty(s) then Nothing else answer(n)
  }

  function Next(n: nat, s: Send): nat {
    if Empty(s) then n else n + 1
  }

  /** The calls that are made for these sends. */
  function Calls(thread: string, sends: seq<Send>): seq<Call> {
    if sends == [] then []
    else (if Empty(sends[0]) then [] else [Call(thread, sends[0])]) + Calls(thread, sends[1..])
  }

  /** How many of these sends reach the server. */
  function Reaching(sends: seq<Send>): (n: nat)
    ensures n <= |sends|
  {
    if sends == [] then 0 else Next(Reaching(sends[1..]), sends[0])
  }

  lemma {:induction false} CallsReaching(thread: string, sends: seq<Send>)
    ensures |Calls(thread, sends)| == Reaching(sends)
  {
    if sends != [] {
      CallsReaching(thread, sends[1..]);
    }
  }

  lemma CallsOne(thread: string, s: Send)
    ensures Calls(thread, [s])
            == if s.MediaSend? && s.media.Media? && s.media.fileRef == "" then [] else [Call(thread, s)]
  {
    assert [s][1..] == [];
    assert Calls(thread, [s]) == (if Empty(s) then [] else [Call(thread, s)]) + [];
  }

  lemma {:induction false} CallsAppend(thread: string, a: seq<Send>, b: seq<Send>)
    ensures Calls(thread, a + b) == Calls(thread, a) + Calls(thread, b)
    ensures Reaching(a + b) == Reaching(a) + Reaching(b)
  {
    if a == [] {
      assert a + b == b;
    } else {
      assert (a + b)[1..] == a[1..] + b;
      CallsAppend(thread, a[1..], b);
      JoinCalls(if Empty(a[0]) then [] else [Call(thread, a[0])], Calls(thread, a[1..]), Calls(thread, b));
    }
  }

  lemma JoinCalls(a: seq<Call>, b: seq<Call>, c: seq<Call>)
    ensures a + (b + c) == (a + b) + c
  {
  }

  predicate Aborts(o: Outcome, strict: bool) {
    o == Raised || o == Unmapped || (o == Nothing && strict)
  }

  /** Messages delivered so far, and the id of the last one that got an id. */
  datatype Progress = Progress(sentCount: nat, lastId: Option<int>)

  function Advance(p: Progress, o: Outcome): Progress {
    match o
    case Mapped(id) => Progress(p.sentCount + 1, Some(id))
    case Unmapped => Progress(p.sentCount + 1, p.lastId)
    case Nothing => p
    case Raised => p
  }

  datatype Delivery = Delivery(attempted: seq<Send>, ok: bool, progress: Progress)

  /** Sends go out in order until one aborts. */
  function Deliver(answer: nat -> Outcome, n: nat, sends: seq<Send>, strict: bool, p: Progress): Delivery
    decreases |sends|
  {
    if sends == [] then Delivery([], true, p)
    else
      var o := Result(answer, n, sends[0]);
      if Aborts(o, strict) then Delivery([sends[0]], false, Advance(p, o))
      else Prepend([sends[0]], Deliver(answer, Next(n, sends[0]), sends[1..], strict, Advance(p, o)))
  }

  function Prepend(done: seq<Send>, d: Delivery): Delivery {
    d.(attempted := done + d.attempted)
  }

  /** How many of these calls, the first being number n, came back with a message. */
  function Returned(answer: nat -> Outcome, n: nat, sends: seq<Send>): nat
    decreases |sends|
  {
    if sends == [] then 0
    else
      var o := Result(answer, n, sends[0]);
      (if o.Mapped? || o.Unmapped? then 1 else 0) + Returned(answer, Next(n, sends[0]), sends[1..])
  }

  lemma {:induction false} DeliverPrefix(answer: nat -> Outcome, n: nat, sends: seq<Send>, strict: bool, p: Progress)
    ensures var d := Deliver(answer, n, sends, strict, p);
            d.attempted <= sends && (d.ok ==> d.attempted == sends)
    decreases |sends|
  {
    if sends != [] {
      DeliverPrefix(answer, Next(n, sends[0]), sends[1..], strict, Advance(p, Result(answer, n, sends[0])));
    }
  }

  lemma {:induction false} DeliverCounts(answer: nat -> Outcome, n: nat, sends: seq<Send>, strict: bool, p: Progress)
    ensures var d := Deliver(answer, n, sends, strict, p);
            d.progress.sentCount == p.sentCount + Returned(answer, n, d.attempted)
    decreases |sends|
  {
    if sends != [] {
      var o := Result(answer, n, sends[0]);
      var d := Deliver(answer, n, sends, strict, p);
      if Aborts(o, strict) {
        assert d.attempted[1..] == [];
      } else {
        DeliverCounts(answer, Next(n, sends[0]), sends[1..], strict, Advance(p, o));
        assert d.attempted[1..] == Deliver(answer, Next(n, sends[0]), sends[1..], strict, Advance(p, o)).attempted;
      }
    }
  }

  /** Some attempt aborts exactly on failure, and it is the last one. */
  lemma {:induction false} DeliverStops(answer: nat -> Outcome, n: nat, sends: seq<Send>, strict: bool, p: Progress,
                                        i: nat)
    requires i < |Deliver(answer, n, sends, strict, p).attempted| <= |sends|
    ensures var d := Deliver(answer, n, sends, strict, p);
            var o := Result(answer, n + Reaching(sends[..i]), sends[i]);
            (o.Raised? || o.Unmapped? || (o.Nothing? && strict)) <==> !d.ok && i == |d.attempted| - 1
    decreases |sends|
  {
    var o, next := Result(answer, n, sends[0]), Next(n, sends[0]);
    if i > 0 {
      assert sends[..i][1..] == sends[1..][..i - 1];
    }
    if !Aborts(o, strict) {
      var r := Deliver(answer, next, sends[1..], strict, Advance(p, o));
      DeliverPrefix(answer, next, sends[1..], strict, Advance(p, o));
      DeliverFailed(answer, next, sends[1..], strict, Advance(p, o));
      if i > 0 {
        DeliverStops(answer, next, sends[1..], strict, Advance(p, o), i - 1);
      }
    }
  }

  lemma DeliverFailed(answer: nat -> Outcome, n: nat, sends: seq<Send>, strict: bool, p: Progress)
    ensures !Deliver(answer, n, sends, strict, p).ok ==> Deliver(answer, n, sends, strict, p).attempted != []
  {
  }

  /** With every message delivered the reported id is the one of the last send. */
  lemma {:induction false} StrictSuccessReportsLast(answer: nat -> Outcome, n: nat, sends: seq<Send>, p: Progress)
    requires sends != [] && Deliver(answer, n, sends, true, p).ok
    ensures Result(answer, n + |sends| - 1, Last(sends)).Mapped?
    ensures Deliver(answer, n, sends, true, p).progress.lastId == Some(Result(answer, n + |sends| - 1, Last(sends)).id)
    decreases |sends|
  {
    var o := Result(answer, n, sends[0]);
    if |sends| > 1 {
      StrictSuccessReportsLast(answer, Next(n, sends[0]), sends[1..], Advance(p, o));
    } else {
      assert sends[1..] == [];
    }
  }

  /** The ids that these calls, the first being number n, came back with. */
  function Ids(answer: nat -> Outcome, n: nat, sends: seq<Send>): seq<int>
    decreases |sends|
  {
    if sends == [] then []
    else
      var o := Result(answer, n, sends[0]);
      (if o.Mapped? then [o.id] else []) + Ids(answer, Next(n, sends[0]), sends[1..])
  }

  /** The reported id is the last one that came back, strict or not, or else the one from before. */
  lemma {:induction false} LastIdReported(answer: nat -> Outcome, n: nat, sends: seq<Send>, strict: bool, p: Progress)
    ensures var d := Deliver(answer, n, sends, strict, p);
            var ids := Ids(answer, n, d.attempted);
            d.progress.lastId == if ids == [] then p.lastId else Some(Last(ids))
    decreases |sends|
  {
    if sends != [] {
      var o := Result(answer, n, sends[0]);
      var d := Deliver(answer, n, sends, strict, p);
      if Aborts(o, strict) {
        assert d.attempted[1..] == [];
      } else {
        LastIdReported(answer, Next(n, sends[0]), sends[1..], strict, Advance(p, o));
        assert d.attempted[1..] == Deliver(answer, Next(n, sends[0]), sends[1..], strict, Advance(p, o)).attempted;
      }
    }
  }

  function Concat(parts: seq<string>): string {
    if parts == [] then "" else Concat(parts[..|parts| - 1]) + Last(parts)
  }

  /** The server: its log of calls, and how it answers the n-th of them. */
  class Server {
    const answer: nat -> Outcome
    var log: seq<Call>

    constructor (answer: nat -> Outcome)
      ensures this.answer == answer && log == []
    {
      this.answer := answer;
      log := [];
    }

    method Submit(thread: string, s: Send) returns (o: Outcome)
      modifies this
      ensures log == old(log) + Calls(thread, [s]) && |log| == Next(old(|log|), s)
      ensures o == Result(answer, old(|log|), s)
    {
      CallsOne(thread, s);
      if Empty(s) {
        return Nothing;
      }
      o := answer(|log|);
      log := log + [Call(thread, s)];
    }
  }

  lemma DeliverOne(answer: nat -> Outcome, n: nat, s: Send, rest: seq<Send>, strict: bool, p: Progress)
    ensures var o := Result(answer, n, s);
            Deliver(answer, n, [s] + rest, strict, p) ==
            if Aborts(o, strict) then Delivery([s], false, Advance(p, o))
            else Prepend([s], Deliver(answer, Next(n, s), rest, strict, Advance(p, o)))
  {
    assert ([s] + rest)[1..] == rest;
  }

  lemma PrependTwice(a: seq<Send>, b: seq<Send>, d: Delivery)
    ensures Prepend(a, Prepend(b, d)) == Prepend(a + b, d)
  {
    assert a + (b + d.attempted) == (a + b) + d.attempted;
  }

  /** One send, if there is one, and record_sent_message with its callback. */
  method SendOne(server: Server, thread: string, s: Option<Send>, strict: bool, p: Progress, ghost rest: seq<Send>)
    returns (ok: bool, q: Progress, ghost sent: seq<Send>)
    modifies server
    ensures sent == (if s.Some? then [s.value] else []) && server.log == old(server.log) + Calls(thread, sent)
    ensures Deliver(server.answer, old(|server.log|), sent + rest, strict, p) ==
            if ok then Prepend(sent, Deliver(server.answer, |server.log|, rest, strict, q))
                else Delivery(sent, false, q)
  {
    match s {
      case None =>
        ok, q, sent := true, p, [];
        assert sent + rest == rest;
      case Some(send) =>
        DeliverOne(server.answer, |server.log|, send, rest, strict, p);
        var o := server.Submit(thread, send);
        ok, q, sent := !Aborts(o, strict), Advance(p, o), [send];
    }
  }

  /** flush_text: join and normalise the parts, and send them with whatever is pending. */
  function FlushParts(norm: string -> string, parts: seq<string>, p: Pending, force: bool): Option<Send> {
    var text := norm(Concat(parts));
    if text == "" && !(force && p.quote != "") then None else Some(TextSend(text, p.quote, p.mentions, p.replyMention))
  }

  predicate Parts(parts: seq<string>, run: seq<Segment>) {
    |parts| == |run| && forall k :: 0 <= k < |run| ==> run[k] == Text(parts[k])
  }

  lemma {:induction false} PartsJoin(parts: seq<string>, run: seq<Segment>)
    requires Parts(parts, run)
    ensures Concat(parts) == Join(run)
  {
    if parts != [] {
      PartsJoin(parts[..|parts| - 1], run[..|run| - 1]);
    }
  }

  lemma {:induction false} RunEndIs(segments: seq<Segment>, i: nat, j: nat)
    requires i <= j <= |segments| && OnlyText(segments[i..j]) && (j < |segments| ==> segments[j].Media?)
    ensures RunEnd(segments, i) == j
    decreases j - i
  {
    if i < j {
      assert segments[i..j][0].Text?;
      assert segments[i..j][1..] == segments[i + 1..j];
      RunEndIs(segments, i + 1, j);
    }
  }

  /** _collect_trailing_text_caption: the text behind an image, if there is nothing else. */
  method CollectTrailingTextCaption(norm: string -> string, segments: seq<Segment>,
      start: nat) returns (caption: string, next: nat)
    requires start <= |segments|
    ensures if RunEnd(segments, start) == |segments| then caption == norm(Join(segments[start..])) && next == |segments|
            else caption == "" && next == start
  {
    var parts: seq<string> := [];
    var index := start;
    while index < |segments|
      invariant start <= index <= |segments|
      invariant Parts(parts, segments[start..index])
    {
      if !segments[index].Text? {
        RunEndIs(segments, start, index);
        return "", start;
      }
      assert segments[start..index + 1] == segments[start..index] + [segments[index]];
      parts := parts + [segments[index].text];
      index := index + 1;
    }
    RunEndIs(segments, start, index);
    assert segments[start..index] == segments[start..];
    PartsJoin(parts, segments[start..]);
    return norm(Concat(parts)), index;
  }

  /** The plan of a stretch that starts with a run of text and goes on with media at j. */
  lemma PlanStep(norm: string -> string, segments: seq<Segment>, i: nat, j: nat, p: Pending, parts: seq<string>)
    requires i <= j < |segments| && Parts(parts, segments[i..j]) && segments[j].Media?
    ensures var text := if parts == [] && p.quote == "" then None else FlushParts(norm, parts, p, parts == []);
            var media := MediaBlock(norm, segments, j, p.quote != "", After(text, p));
            Sends(Plan(norm, segments, i, p)) ==
            (if text.Some? then [text.value] else []) +
            ([media.send.value] + Sends(Plan(norm, segments, media.until, After(text, p))))
  {
    RunEndIs(segments, i, j);
    PartsJoin(parts, segments[i..j]);
    var text := Block(i, j, FlushBeforeMedia(norm, segments[i..j], p));
    var media := MediaBlock(norm, segments, j, p.quote != "", After(text.send, p));
    PairSends(text, media, Plan(norm, segments, media.until, After(text.send, p)));
  }

  lemma PlanEnd(norm: string -> string, segments: seq<Segment>, i: nat, p: Pending, parts: seq<string>)
    requires i <= |segments| && Parts(parts, segments[i..])
    ensures var text := FlushParts(norm, parts, p, true);
            Sends(Plan(norm, segments, i, p)) == if text.Some? then [text.value] else []
  {
    assert segments[i..|segments|] == segments[i..];
    RunEndIs(segments, i, |segments|);
    PartsJoin(parts, segments[i..]);
    var block := Block(i, |segments|, FlushParts(norm, parts, p, true));
    assert [block][1..] == [];
    assert Sends([block]) == SendOf(block) + [];
  }

  lemma LogTwice(log: seq<Call>, thread: string, a: seq<Send>, b: seq<Send>)
    ensures log + Calls(thread, a) + Calls(thread, b) == log + Calls(thread, a + b)
  {
    CallsAppend(thread, a, b);
    JoinCalls(log, Calls(thread, a), Calls(thread, b));
  }

  lemma PartsSnoc(parts: seq<string>, segments: seq<Segment>, i: nat, j: nat)
    requires i <= j < |segments| && Parts(parts, segments[i..j]) && segments[j].Text?
    ensures Parts(parts + [segments[j].text], segments[i..j + 1])
  {
    assert segments[i..j + 1] == segments[i..j] + [segments[j]];
  }

  /** The flush before a media segment: the parts, or nothing but a quote that is still pending. */
  method FlushTextParts(server: Server, norm: string -> string, thread: string, parts: seq<string>, pending: Pending,
                        strict: bool, before: Progress, ghost rest: seq<Send>)
    returns (ok: bool, progress: Progress, left: Pending, ghost sent: seq<Send>)
    modifies server
    ensures var text := if parts == [] && pending.quote == "" then None
            else FlushParts(norm, parts, pending, parts == []);
            sent == (if text.Some? then [text.value] else []) && left == After(text, pending)
    ensures server.log == old(server.log) + Calls(thread, sent)
    ensures Deliver(server.answer, old(|server.log|), sent + rest, strict, before) ==
            if ok then Prepend(sent, Deliver(server.answer, |server.log|, rest, strict, progress))
                else Delivery(sent, false, progress)
  {
    var text: Option<Send> := None;
    if parts != [] {
      text := FlushParts(norm, parts, pending, false);
    } else if pending.quote != "" {
      text := FlushParts(norm, parts, pending, true);
    }
    left := After(text, pending);
    ok, progress, sent := SendOne(server, thread, text, strict, before, rest);
  }

  /** The media segment at j, with the text behind it as caption where that is allowed. */
  method SendMediaSegment(server: Server, norm: string -> string, segments: seq<Segment>, j: nat, thread: string,
                          hadQuote: bool, left: Pending, strict: bool, before: Progress, ghost rest: seq<Send>)
    returns (ok: bool, progress: Progress, next: nat, ghost sent: seq<Send>)
    requires j < |segments| && segments[j].Media?
    modifies server
    ensures var media := MediaBlock(norm, segments, j, hadQuote, left);
            sent == [media.send.value] && next == media.until
    ensures server.log == old(server.log) + Calls(thread, sent)
    ensures Deliver(server.answer, old(|server.log|), sent + rest, strict, before) ==
            if ok then Prepend(sent, Deliver(server.answer, |server.log|, rest, strict, progress))
                else Delivery(sent, false, progress)
  {
    var caption := "";
    next := j + 1;
    if segments[j].kind.Image? && !hadQuote && left.mentions == [] && left.replyMention == "" {
      caption, next := CollectTrailingTextCaption(norm, segments, j + 1);
    }
    ok, progress, sent := SendOne(server, thread, Some(MediaSend(segments[j], caption)), strict, before, rest);
  }

  lemma DeliverBoth(a: seq<Send>, b: seq<Send>, d: Delivery)
    ensures Prepend(a, Prepend(b, d)) == Prepend(a + b, d)
    ensures Prepend(a, Delivery(b, false, d.progress)) == Delivery(a + b, false, d.progress)
  {
    PrependTwice(a, b, d);
  }

  /** The text parts collected before the media segment at j, if they say anything, and the segment. */
  method FlushAndSendMedia(server: Server, norm: string -> string, segments: seq<Segment>, j: nat, thread: string,
                           parts: seq<string>, pending: Pending, strict: bool, before: Progress, ghost start: nat)
    returns (ok: bool, progress: Progress, left: Pending, next: nat, ghost sent: seq<Send>)
    requires start <= j < |segments| && Parts(parts, segments[start..j]) && segments[j].Media?
    modifies server
    ensures j < next <= |segments| && server.log == old(server.log) + Calls(thread, sent)
    ensures Deliver(server.answer, old(|server.log|), Sends(Plan(norm, segments, start, pending)), strict, before) ==
            if ok then Prepend(sent,
                Deliver(server.answer, |server.log|, Sends(Plan(norm, segments, next, left)), strict, progress))
            else Delivery(sent, false, progress)
  {
    PlanStep(norm, segments, start, j, pending, parts);
    var hadQuote := pending.quote != "";
    ghost var text := if parts == [] && !hadQuote then None else FlushParts(norm, parts, pending, parts == []);
    ghost var media := MediaBlock(norm, segments, j, hadQuote, After(text, pending));
    ghost var rest := Sends(Plan(norm, segments, media.until, After(text, pending)));
    next := j + 1;
    ok, progress, left, sent :=
        FlushTextParts(server, norm, thread, parts, pending, strict, before, [media.send.value] + rest);
    if !ok {
      return;
    }
    ghost var more;
    ok, progress, next, more :=
        SendMediaSegment(server, norm, segments, j, thread, hadQuote, left, strict, progress, rest);
    LogTwice(old(server.log), thread, sent, more);
    DeliverBoth(sent, more, if ok then Deliver(server.answer, |server.log|, rest, strict, progress)
        else Delivery([], false, progress));
    sent := sent + more;
  }

  /** send_message_segments. */
  method SendMessageSegments(server: Server, norm: string -> string, segments: seq<Segment>, thread: string,
                             quote: string, mentions: seq<string>, replyMention: string, strict: bool, before: Progress)
    returns (ok: bool, progress: Progress)
    modifies server
    ensures var sends := Sends(Plan(norm, segments, 0, Pending(quote, mentions, replyMention)));
            var d := Deliver(server.answer, old(|server.log|), sends, strict, before);
            server.log == old(server.log) + Calls(thread, d.attempted) && ok == d.ok && progress == d.progress
  {
    var parts: seq<string>, pending, index := [], Pending(quote, mentions, replyMention), 0;
    progress := before;
    ghost var start, done: seq<Send> := 0, [];
    ghost var all := Deliver(server.answer, |server.log|, Sends(Plan(norm, segments, 0, pending)), strict, before);
    while index < |segments|
      invariant 0 <= start <= index <= |segments| && Parts(parts, segments[start..index])
      invariant server.log == old(server.log) + Calls(thread, done)
      invariant all == Prepend(done,
                Deliver(server.answer, |server.log|, Sends(Plan(norm, segments, start, pending)), strict, progress))
    {
      if segments[index].Text? {
        PartsSnoc(parts, segments, start, index);
        parts := parts + [segments[index].text];
        index := index + 1;
        continue;
      }
      ghost var sent;
      ok, progress, pending, index, sent :=
        FlushAndSendMedia(server, norm, segments, index, thread, parts, pending, strict, progress, start);
      LogTwice(old(server.log), thread, done, sent);
      ghost var rest := Sends(Plan(norm, segments, index, pending));
      DeliverBoth(done, sent, if ok then Deliver(server.answer, |server.log|, rest, strict, progress)
                              else Delivery([], false, progress));
      done := done + sent;
      if !ok {
        return;
      }
      parts, start := [], index;
    }
    ghost var sent;
    ok, progress, sent := FlushRest(server, norm, segments, thread, parts, pending, strict, progress, start);
    LogTwice(old(server.log), thread, done, sent);
  }

  /** The last flush, forced for the sake of a quote that is still pending. */
  method FlushRest(server: Server, norm: string -> string, segments: seq<Segment>, thread: string,
                   parts: seq<string>, pending: Pending, strict: bool, before: Progress, ghost start: nat)
    returns (ok: bool, progress: Progress, ghost sent: seq<Send>)
    requires start <= |segments| && Parts(parts, segments[start..])
    modifies server
    ensures server.log == old(server.log) + Calls(thread, sent)
    ensures Deliver(server.answer, old(|server.log|), Sends(Plan(norm, segments, start, pending)), strict, before) ==
            Delivery(sent, ok, progress)
  {
    PlanEnd(norm, segments, start, pending, parts);
    ok, progress, sent := SendOne(server, thread, FlushParts(norm, parts, pending, true), strict, before, []);
    assert sent + [] == sent;
  }
}
