/**
 * The notification text: a fixed header line, then for every pull request,
 * in the order the search returned them, a "- title" line and a URL line.
 */
module Message {
  import opened Wrappers
  import opened GitHub

  const Header: string := "Pull requests requiring review:\n"

  /** The block written for one pull request. */
  function Block(pr: Issue): string
  {
    "- " + pr.title + "\n" + pr.htmlUrl + "\n"
  }

  /** The blocks of `prs`, concatenated in order. */
  function Blocks(prs: seq<Issue>): string
    decreases |prs|
  {
    if prs == [] then "" else Block(prs[0]) + Blocks(prs[1..])
  }

  /** The whole message for a list of pull requests. */
  function Compose(prs: seq<Issue>): (msg: string)
    ensures |msg| >= |Header| && msg[..|Header|] == Header
  {
    Header + Blocks(prs)
  }

  /** Adding one more pull request adds its block at the end. */
  lemma {:induction false} BlocksAppend(prs: seq<Issue>, pr: Issue)
    ensures Blocks(prs + [pr]) == Blocks(prs) + Block(pr)
    decreases |prs|
  {
    if prs == [] {
      assert [pr][1..] == [];
      assert prs + [pr] == [pr];
    } else {
      assert (prs + [pr])[0] == prs[0];
      assert (prs + [pr])[1..] == prs[1..] + [pr];
      BlocksAppend(prs[1..], pr);
    }
  }

  /** One more pull request extends the message by exactly its block; the earlier text is kept. */
  lemma ComposeAppend(prs: seq<Issue>, pr: Issue)
    ensures Compose(prs + [pr]) == Compose(prs) + Block(pr)
  {
    BlocksAppend(prs, pr);
  }

  /**
   * The loop of the main cycle: start from the header and append one block per
   * pull request.
   */
  method BuildMessage(prs: seq<Issue>) returns (message: string)
    ensures message == Compose(prs)
  {
    message := Header;
    for i := 0 to |prs|
      invariant message == Header + Blocks(prs[..i])
    {
      BlocksAppend(prs[..i], prs[i]);
      assert prs[..i + 1] == prs[..i] + [prs[i]];
      message := message + ("- " + prs[i].title + "\n" + prs[i].htmlUrl + "\n");
    }
    assert prs[..|prs|] == prs;
  }

  // Reading a message back. The text determines the list only when no title
  // or URL contains a line break, so the inverse is stated for those lists.

  predicate SingleLine(s: string)
  {
    forall k :: 0 <= k < |s| ==> s[k] != '\n'
  }

  predicate AllSingleLine(prs: seq<Issue>)
  {
    forall i :: 0 <= i < |prs| ==> SingleLine(prs[i].title) && SingleLine(prs[i].htmlUrl)
  }

  /** The index of the first line break in `s`, or `|s|` when there is none. */
  function LineEnd(s: string): (k: nat)
    ensures k <= |s|
    ensures forall j :: 0 <= j < k ==> s[j] != '\n'
    ensures k < |s| ==> s[k] == '\n'
  {
    if s == [] || s[0] == '\n' then 0 else 1 + LineEnd(s[1..])
  }

  /** The first line of `s` and the text after its line break; None when `s` has no line break. */
  function SplitLine(s: string): (r: Option<(string, string)>)
    ensures r.Some? ==> |r.value.0| + 1 + |r.value.1| == |s|
  {
    var k := LineEnd(s);
    if k == |s| then None else Some((s[..k], s[k + 1..]))
  }

  /** A single line followed by a line break splits back into that line and the rest. */
  lemma SplitLineOf(line: string, rest: string)
    requires SingleLine(line)
    ensures SplitLine(line + "\n" + rest) == Some((line, rest))
  {
    var s := line + "\n" + rest;
    assert s[|line|] == '\n';
    assert LineEnd(s) == |line|;
    assert s[..|line|] == line && s[|line| + 1..] == rest;
  }

  /** Read one "- title" / URL line pair off the front of `s`, with what follows it. */
  function ParseBlock(s: string): (r: Option<(Issue, string)>)
    ensures r.Some? ==> |r.value.1| < |s|
  {
    if |s| < 2 || s[..2] != "- " then None
    else
      match SplitLine(s[2..])
      case None => None
      case Some((title, afterTitle)) =>
        match SplitLine(afterTitle)
        case None => None
        case Some((url, tail)) => Some((Issue(url, title), tail))
  }

  /** Split `s` into blocks; None when it is not made of whole blocks. */
  function ParseBlocks(s: string): Option<seq<Issue>>
    decreases |s|
  {
    if s == [] then Some([])
    else
      match ParseBlock(s)
      case None => None
      case Some((pr, tail)) =>
        match ParseBlocks(tail)
        case None => None
        case Some(more) => Some([pr] + more)
  }

  /** The pull requests a message lists, or None when it is not such a message. */
  function ParseMessage(msg: string): Option<seq<Issue>>
  {
    if |msg| >= |Header| && msg[..|Header|] == Header then ParseBlocks(msg[|Header|..]) else None
  }

  /** Reading a block back gives the pull request it was written from and leaves what follows. */
  lemma ParseBlockOf(pr: Issue, tail: string)
    requires SingleLine(pr.title) && SingleLine(pr.htmlUrl)
    ensures ParseBlock(Block(pr) + tail) == Some((pr, tail))
  {
    var rest := pr.htmlUrl + "\n" + tail;
    var t := pr.title + "\n" + rest;
    var s := Block(pr) + tail;
    assert s == "- " + t;
    assert s[..2] == "- " && s[2..] == t;
    SplitLineOf(pr.title, rest);
    SplitLineOf(pr.htmlUrl, tail);
  }

  lemma {:induction false} ParseBlocksOfBlocks(prs: seq<Issue>)
    requires AllSingleLine(prs)
    ensures ParseBlocks(Blocks(prs)) == Some(prs)
    decreases |prs|
  {
    if prs != [] {
      assert AllSingleLine(prs[1..]) by {
        forall i | 0 <= i < |prs[1..]|
          ensures SingleLine(prs[1..][i].title) && SingleLine(prs[1..][i].htmlUrl)
        {
          assert prs[1..][i] == prs[i + 1];
        }
      }
      ParseBlocksOfBlocks(prs[1..]);
      assert SingleLine(prs[0].title) && SingleLine(prs[0].htmlUrl);
      ParseBlockOf(prs[0], Blocks(prs[1..]));
      assert [prs[0]] + prs[1..] == prs;
    }
  }

  /**
   * A message lists exactly the pull requests it was composed from, one block
   * each and in the same order.
   */
  lemma MessageRoundTrip(prs: seq<Issue>)
    requires AllSingleLine(prs)
    ensures ParseMessage(Compose(prs)) == Some(prs)
  {
    var msg := Compose(prs);
    assert msg[|Header|..] == Blocks(prs);
    ParseBlocksOfBlocks(prs);
  }

  /** Two lists of single-line pull requests give the same message only when they are equal. */
  lemma ComposeInjective(a: seq<Issue>, b: seq<Issue>)
    requires AllSingleLine(a) && AllSingleLine(b)
    requires Compose(a) == Compose(b)
    ensures a == b
  {
    MessageRoundTrip(a);
    MessageRoundTrip(b);
  }

  /** The worked example: one pull request "Fix bug" at https://x/pr/1. */
  lemma ComposeExample()
    ensures Compose([Issue("https://x/pr/1", "Fix bug")])
         == "Pull requests requiring review:\n- Fix bug\nhttps://x/pr/1\n"
  {
    var prs := [Issue("https://x/pr/1", "Fix bug")];
    assert prs[1..] == [];
  }
}
