// Mention formatting of the Telegram notifier (backend/app/notifier.py). The HTTP
// transport of the notifier is not part of this module.
module Notifier {
  import opened Text

  /** The HTML anchor that mentions one Telegram user under the display name. */
  function Tag(userId: string, name: string): string {
    "<a href=\"tg://user?id=" + userId + "\">" + name + "</a>"
  }

  /** One tag per user id, in order. */
  function Tags(userIds: seq<string>, name: string): (r: seq<string>)
    ensures |r| == |userIds|
    ensures forall k | 0 <= k < |userIds| :: r[k] == Tag(userIds[k], name)
  {
    if userIds == [] then [] else Tags(userIds[..|userIds| - 1], name) + [Tag(userIds[|userIds| - 1], name)]
  }

  /** format_mentions: the tags joined by single spaces. */
  method FormatMentions(userIds: seq<string>, name: string) returns (r: string)
    ensures r == Join(" ", Tags(userIds, name))
  {
    var tags: seq<string> := [];
    for i := 0 to |userIds|
      invariant tags == Tags(userIds[..i], name)
    {
      assert userIds[..i + 1][..i] == userIds[..i];
      tags := tags + [Tag(userIds[i], name)];
    }
    assert userIds[..|userIds|] == userIds;
    r := Join(" ", tags);
  }

  /**
   * No ids give ""; one id gives its tag alone; the mentions of two id lists are those
   * of each with one space between, so every id gets one tag, in order.
   */
  lemma MentionsShape(a: seq<string>, b: seq<string>, name: string)
    ensures Join(" ", Tags([], name)) == ""
    ensures |a| == 1 ==> Join(" ", Tags(a, name)) == Tag(a[0], name)
    ensures a != [] && b != [] ==>
      Join(" ", Tags(a + b, name)) == Join(" ", Tags(a, name)) + " " + Join(" ", Tags(b, name))
  {
    if a != [] && b != [] {
      TagsAppend(a, b, name);
      JoinAppend(" ", Tags(a, name), Tags(b, name));
    }
  }

  lemma TagsAppend(a: seq<string>, b: seq<string>, name: string)
    ensures Tags(a + b, name) == Tags(a, name) + Tags(b, name)
  {
    var l, r := Tags(a + b, name), Tags(a, name) + Tags(b, name);
    assert |l| == |r|;
    forall k | 0 <= k < |l| ensures l[k] == r[k] {
      if k < |a| { assert (a + b)[k] == a[k]; } else { assert (a + b)[k] == b[k - |a|]; }
    }
  }
}
