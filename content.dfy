/** The text-producing part of `process_page_content`: the page, already parsed
    and cleaned of script/style/noscript/meta/link/svg elements, is given as its
    element nodes in document order, each with its whitespace-stripped text. */
module Content {
  import opened Wrappers
  import opened Text

  /** One element node of the parsed page. */
  datatype Node =
    | Heading(level: nat, text: string)              // h1 .. h6
    | Para(text: string)                             // p
    | Anchor(text: string, href: Option<string>)     // a, with its href attribute if present

  /** The tags the extractor asks the parser for: h1, h2, h3, p and a. */
  predicate Selected(n: Node) {
    match n
    case Heading(level, _) => 1 <= level <= 3
    case _ => true
  }

  /** How an anchor's href is rendered by the f-string: absent becomes `None`. */
  function HrefText(href: Option<string>): string {
    match href
    case None => "None"
    case Some(u) => u
  }

  /** The line of a selected node with non-empty text, by tag. */
  function Format(n: Node): string {
    match n
    case Heading(level, t) => Repeat('#', level) + " " + t
    case Para(t) => "\n" + t + "\n"
    case Anchor(t, href) => "[" + t + "](" + HrefText(href) + ")"
  }

  /** The output line of one node, or nothing when the node is not selected or
      its text is empty. */
  function Line(n: Node): Option<string> {
    if !Selected(n) || n.text == "" then None else Some(Format(n))
  }

  /** The lines the nodes produce, in document order. */
  function Lines(nodes: seq<Node>): seq<string> {
    if nodes == [] then []
    else Lines(nodes[..|nodes| - 1]) + LineOf(nodes[|nodes| - 1])
  }

  /** Extending a run of nodes by the next one extends its lines by that
      node's line. */
  lemma LinesStep(nodes: seq<Node>, i: nat)
    requires i < |nodes|
    ensures Lines(nodes[..i + 1]) == Lines(nodes[..i]) + LineOf(nodes[i])
  {
    assert nodes[..i + 1][..i] == nodes[..i];
  }

  /** The line of one node as a list of zero or one elements. */
  function LineOf(n: Node): seq<string> {
    match Line(n)
    case Some(l) => [l]
    case None => []
  }

  /** The prefix label opens the output when it is non-empty. */
  function PrefixLines(prefix: string): seq<string> {
    if prefix != "" then [prefix] else []
  }

  /** The block one extraction pass produces: prefix and lines joined by newlines. */
  function Extract(nodes: seq<Node>, prefix: string): string {
    Join(PrefixLines(prefix) + Lines(nodes), "\n")
  }

  /** A node with empty text yields nothing, whatever its kind and href. */
  lemma EmptyTextSkipped(n: Node)
    requires n.text == ""
    ensures Line(n) == None
  {
  }

  /** A heading of level 1 to 3 yields exactly `level` hash characters, one
      space, then its text. */
  lemma HeadingHashes(level: nat, t: string)
    requires 1 <= level <= 3 && t != ""
    ensures Line(Heading(level, t)).Some?
    ensures var s := Line(Heading(level, t)).value;
      |s| == level + 1 + |t| &&
      (forall i :: 0 <= i < level ==> s[i] == '#') &&
      s[level] == ' ' && s[level + 1..] == t
  {
  }

  /** Headings h4 to h6 are not asked for, so they yield nothing. */
  lemma DeepHeadingsDropped(level: nat, t: string)
    requires 4 <= level <= 6
    ensures Line(Heading(level, t)) == None
  {
  }

  /** A paragraph without line breaks of its own is a blank line, its text and
      another blank line. */
  lemma ParagraphBetweenBlankLines(t: string)
    requires t != "" && '\n' !in t
    ensures Line(Para(t)).Some?
    ensures Split(Line(Para(t)).value, '\n') == ["", t, ""]
  {
    var s := Line(Para(t)).value;
    assert s == "" + ['\n'] + (t + ['\n'] + "");
    SplitAtFirst("", '\n', t + ['\n'] + "");
    SplitAtFirst(t, '\n', "");
    assert Split("", '\n') == [""];
  }

  /** An anchor with text yields `[text](href)`, with `None` for a missing href. */
  lemma AnchorLink(t: string, href: Option<string>)
    requires t != ""
    ensures Line(Anchor(t, href)).Some?
    ensures var s := Line(Anchor(t, href)).value;
      s[..|t| + 3] == "[" + t + "](" && s[|s| - 1] == ')' &&
      s[|t| + 3..|s| - 1] == (if href.None? then "None" else href.value)
  {
  }

  /** Every produced line is non-empty. */
  lemma {:induction false} LinesNonEmpty(nodes: seq<Node>)
    ensures forall k :: 0 <= k < |Lines(nodes)| ==> Lines(nodes)[k] != ""
  {
    if nodes != [] {
      LinesNonEmpty(nodes[..|nodes| - 1]);
      var n := nodes[|nodes| - 1];
      if Line(n).Some? {
        match n
        case Heading(level, t) => assert Line(n).value[level] == ' ';
        case Para(t) => assert Line(n).value[0] == '\n';
        case Anchor(t, href) => assert Line(n).value[0] == '[';
      }
    }
  }

  /** The nodes produce no line exactly when none of them is a selected node
      with non-empty text. */
  lemma {:induction false} NoLinesIffNothingQualifies(nodes: seq<Node>)
    ensures Lines(nodes) == [] <==>
      forall i :: 0 <= i < |nodes| ==> !Selected(nodes[i]) || nodes[i].text == ""
  {
    if nodes != [] {
      var init := nodes[..|nodes| - 1];
      NoLinesIffNothingQualifies(init);
      assert forall i :: 0 <= i < |init| ==> init[i] == nodes[i];
    }
  }

  /** Lines of consecutive runs of nodes follow one another in document order. */
  lemma {:induction false} LinesAppend(a: seq<Node>, b: seq<Node>)
    ensures Lines(a + b) == Lines(a) + Lines(b)
  {
    if b == [] {
      assert a + b == a;
    } else {
      LinesAppend(a, b[..|b| - 1]);
      assert (a + b)[..|a + b| - 1] == a + b[..|b| - 1];
    }
  }

  /** With an empty prefix and no qualifying node the block is the empty string. */
  lemma EmptyPageEmptyBlock(nodes: seq<Node>)
    requires forall i :: 0 <= i < |nodes| ==> !Selected(nodes[i]) || nodes[i].text == ""
    ensures Extract(nodes, "") == ""
  {
    NoLinesIffNothingQualifies(nodes);
  }

  /** A non-empty prefix is the first element: the block is the prefix, then,
      if any line was produced, a newline and the joined lines. */
  lemma PrefixComesFirst(nodes: seq<Node>, prefix: string)
    requires prefix != ""
    ensures Extract(nodes, prefix) ==
      prefix + (if Lines(nodes) == [] then "" else "\n" + Join(Lines(nodes), "\n"))
  {
    if Lines(nodes) != [] {
      JoinAppend([prefix], Lines(nodes), "\n");
    } else {
      assert [prefix] + Lines(nodes) == [prefix];
    }
  }

  /** Extracting two runs of nodes one after the other gives the two blocks
      joined by a single newline, in node order. */
  lemma ExtractAppend(a: seq<Node>, b: seq<Node>)
    ensures Extract(a + b, "") ==
      if Lines(a) == [] then Extract(b, "")
      else if Lines(b) == [] then Extract(a, "")
      else Extract(a, "") + "\n" + Extract(b, "")
  {
    LinesAppend(a, b);
    var la, lb := Lines(a), Lines(b);
    assert Extract(a, "") == Join(la, "\n") by { assert [] + la == la; }
    assert Extract(b, "") == Join(lb, "\n") by { assert [] + lb == lb; }
    assert Extract(a + b, "") == Join(la + lb, "\n") by { assert [] + Lines(a + b) == la + lb; }
    if la == [] {
      assert la + lb == lb;
    } else if lb == [] {
      assert la + lb == la;
    } else {
      JoinAppend(la, lb, "\n");
    }
  }
}
