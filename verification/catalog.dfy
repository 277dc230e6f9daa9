/** Tool descriptors and the filter pipeline: a category allow-list followed
    by a count cap. */
module Catalog {
  import opened Text
  import opened Category
  import opened Seqs

  /** A remote tool descriptor, received verbatim from the catalog. */
  datatype Tool = Tool(name: string, description: string)

  /** The allow-list test: some enabled entry equals the tool's category, or
      is a prefix of its raw name. */
  predicate Selected(t: Tool, enabled: seq<string>)
  {
    exists e :: e in enabled && (GetCategory(t.name) == e || StartsWith(t.name, e))
  }

  /** The category stage: the tools that pass the allow-list, in catalog
      order. */
  function KeepSelected(tools: seq<Tool>, enabled: seq<string>): (r: seq<Tool>)
    ensures |r| <= |tools|
    ensures forall t :: t in r <==> t in tools && Selected(t, enabled)
  {
    KeepIf(tools, t => Selected(t, enabled))
  }

  /** The cap stage: a positive `maxTools` smaller than the list keeps its
      first `maxTools` entries; anything else keeps the list whole. */
  function Cap<T(==)>(tools: seq<T>, maxTools: int): (r: seq<T>)
    ensures maxTools > 0 ==> |r| <= maxTools
    ensures IsPrefix(tools, r)
  {
    if maxTools > 0 && |tools| > maxTools then tools[..maxTools] else tools
  }

  /** The allow-list stage as the pipeline applies it: an empty allow-list
      disables it. */
  function CategoryStage(tools: seq<Tool>, enabled: seq<string>): seq<Tool>
  {
    if |enabled| > 0 then KeepSelected(tools, enabled) else tools
  }

  /** The filter pipeline: the allow-list applies only when it is non-empty;
      the cap applies afterwards. The result is an in-order subsequence of
      the catalog, every kept tool passes a non-empty allow-list, and a
      positive cap bounds its length. */
  function FilterTools(tools: seq<Tool>, enabled: seq<string>, maxTools: int): (r: seq<Tool>)
    ensures IsSubsequence(r, tools)
    ensures |enabled| > 0 ==> forall t :: t in r ==> Selected(t, enabled)
    ensures maxTools > 0 ==> |r| <= maxTools
  {
    var filtered := CategoryStage(tools, enabled);
    SubsequenceOfSelf(tools);
    KeepSelectedIsSubsequence(tools, enabled);
    PrefixOfSubsequence(filtered, tools, Cap(filtered, maxTools));
    Cap(filtered, maxTools)
  }

  /** The category stage drops tools but never reorders them. */
  lemma KeepSelectedIsSubsequence(tools: seq<Tool>, enabled: seq<string>)
    ensures IsSubsequence(KeepSelected(tools, enabled), tools)
  {
    KeepIfIsSubsequence(tools, t => Selected(t, enabled));
  }

  /** The category stage is exactly the allow-list filter: each tool occurs
      in the result as often as in the catalog when it passes the allow-list,
      and not at all otherwise. */
  lemma KeepSelectedCounts(tools: seq<Tool>, enabled: seq<string>, t: Tool)
    ensures multiset(KeepSelected(tools, enabled))[t]
         == if Selected(t, enabled) then multiset(tools)[t] else 0
  {
    KeepIfCounts(tools, u => Selected(u, enabled), t);
  }

  /** An empty allow-list and a non-positive cap leave the catalog unchanged. */
  lemma FilterIdentity(tools: seq<Tool>, maxTools: int)
    requires maxTools <= 0
    ensures FilterTools(tools, [], maxTools) == tools
  {
  }

  /** Without a cap the pipeline keeps exactly the tools that pass the
      allow-list (every tool when it is empty), each as often as the catalog
      lists it, so every passing tool is kept. */
  lemma FilterUncapped(tools: seq<Tool>, enabled: seq<string>, maxTools: int, t: Tool)
    requires maxTools <= 0
    ensures multiset(FilterTools(tools, enabled, maxTools))[t]
         == if |enabled| == 0 || Selected(t, enabled) then multiset(tools)[t] else 0
    ensures t in tools && (|enabled| == 0 || Selected(t, enabled)) ==> t in FilterTools(tools, enabled, maxTools)
  {
    if |enabled| > 0 {
      KeepSelectedCounts(tools, enabled, t);
    }
  }

  /** A positive cap keeps the first `maxTools` tools of the uncapped result
      when there are more than that, and the whole uncapped result
      otherwise. */
  lemma FilterCapped(tools: seq<Tool>, enabled: seq<string>, maxTools: int)
    requires maxTools > 0
    ensures var all := FilterTools(tools, enabled, 0);
            var r := FilterTools(tools, enabled, maxTools);
            && (|all| > maxTools ==> |r| == maxTools && r == all[..maxTools])
            && (|all| <= maxTools ==> r == all)
  {
  }

  /** The worked example: with the allow-list ["tiktok"] and a cap of 10,
      only the TikTok tool of a three-tool catalog is kept. */
  lemma FilterExample()
    ensures FilterTools([Tool("xiaohongshu_search", ""), Tool("tiktok_user", ""), Tool("unknown_x", "")],
                        ["tiktok"], 10)
         == [Tool("tiktok_user", "")]
  {
    var enabled := ["tiktok"];
    var x, t, u := Tool("xiaohongshu_search", ""), Tool("tiktok_user", ""), Tool("unknown_x", "");
    ExampleVerdicts();
    var tools := [x, t, u];
    assert KeepSelected(tools[2..], enabled) == [] by {
      assert tools[2..][1..] == [];
    }
    assert KeepSelected(tools[1..], enabled) == [t] by {
      assert tools[1..][1..] == tools[2..];
    }
    assert KeepSelected(tools, enabled) == [t];
  }

  /** The allow-list verdicts behind the worked example. */
  lemma ExampleVerdicts()
    ensures !Selected(Tool("xiaohongshu_search", ""), ["tiktok"])
    ensures Selected(Tool("tiktok_user", ""), ["tiktok"])
    ensures !Selected(Tool("unknown_x", ""), ["tiktok"])
  {
    XiaohongshuVerdict();
    TiktokVerdict();
    UnknownVerdict();
  }

  /** "xiaohongshu_search" is in the Xiaohongshu category and does not start
      with "tiktok". */
  lemma XiaohongshuVerdict()
    ensures !Selected(Tool("xiaohongshu_search", ""), ["tiktok"])
  {
    var x := "xiaohongshu_search";
    AnyKnownPrefixWins(x, 0);
    assert GetCategory(x) != "tiktok" by { assert GetCategory(x)[0] != "tiktok"[0]; }
    assert !StartsWith(x, "tiktok") by { assert x[0] != 't'; }
  }

  /** "tiktok_user" is in the TikTok category. */
  lemma TiktokVerdict()
    ensures Selected(Tool("tiktok_user", ""), ["tiktok"])
  {
    AnyKnownPrefixWins("tiktok_user", 1);
  }

  /** "unknown_x" falls back to the category "unknown". */
  lemma UnknownVerdict()
    ensures !Selected(Tool("unknown_x", ""), ["tiktok"])
  {
    UnknownCategory();
    assert !StartsWith("unknown_x", "tiktok") by { assert "unknown_x"[0] != 't'; }
    assert "unknown" != "tiktok" by { assert "unknown"[0] != "tiktok"[0]; }
  }

  /** No table key starts with 'u', so "unknown_x" splits at its separator. */
  lemma UnknownCategory()
    ensures GetCategory("unknown_x") == "unknown"
  {
  }
}
