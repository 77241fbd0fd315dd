/** The builder half of the `StatusBar` UI component: three optional tool groups
    and the methods that put a tool into one of them. Rendering is not modelled. */
module StatusBar {
  import opened Wrappers

  /** The tools a status bar can show. */
  datatype Tool = ProjectPanel | CollaborationPanel | Terminal | Assistant | Feedback | Diagnostics

  /** A group of tools and the index of the active one. The index is stored as
      given; nothing ties it to the length of `tools`. */
  datatype ToolGroup = ToolGroup(activeIndex: Option<nat>, tools: seq<Tool>)

  /** `ToolGroup::default()`: no active tool and no tools. */
  const EMPTY_GROUP: ToolGroup := ToolGroup(None, [])

  datatype StatusBar = StatusBar(left: Option<ToolGroup>, right: Option<ToolGroup>, bottom: Option<ToolGroup>)

  /** `status_bar()`: a bar with no tool groups at all. */
  function NewStatusBar(): (bar: StatusBar)
    ensures bar.left.None? && bar.right.None? && bar.bottom.None?
  {
    StatusBar(None, None, None)
  }

  /** `group.take().unwrap_or_default().tools`: the tools of a group, none when
      there is no group. */
  function ToolsOf(group: Option<ToolGroup>): seq<Tool>
  {
    match group
    case Some(g) => g.tools
    case None => EMPTY_GROUP.tools
  }

  /** `left_tool`: the new left group is `tool` followed by the old left tools,
      with the given active index; the other groups are untouched. */
  function LeftTool(bar: StatusBar, tool: Tool, activeIndex: Option<nat>): (bar': StatusBar)
    ensures bar'.left == Some(ToolGroup(activeIndex, [tool] + ToolsOf(bar.left)))
    ensures bar'.right == bar.right && bar'.bottom == bar.bottom
  {
    bar.(left := Some(ToolGroup(activeIndex, [tool] + ToolsOf(bar.left))))
  }

  /** `right_tool` as written: the new right group is `tool` followed by the old
      LEFT tools, the left group is taken (left empty) and the old right group is
      dropped; the bottom group is untouched. */
  function RightTool(bar: StatusBar, tool: Tool, activeIndex: Option<nat>): (bar': StatusBar)
    ensures bar'.right == Some(ToolGroup(activeIndex, [tool] + ToolsOf(bar.left)))
    ensures bar'.left.None? && bar'.bottom == bar.bottom
  {
    bar.(left := None, right := Some(ToolGroup(activeIndex, [tool] + ToolsOf(bar.left))))
  }

  /** `bottom_tool` as written: the new bottom group is `tool` followed by the old
      LEFT tools, the left group is taken and the old bottom group is dropped;
      the right group is untouched. */
  function BottomTool(bar: StatusBar, tool: Tool, activeIndex: Option<nat>): (bar': StatusBar)
    ensures bar'.bottom == Some(ToolGroup(activeIndex, [tool] + ToolsOf(bar.left)))
    ensures bar'.left.None? && bar'.right == bar.right
  {
    bar.(left := None, bottom := Some(ToolGroup(activeIndex, [tool] + ToolsOf(bar.left))))
  }

  /** A fresh bar has no groups, so the first tool put anywhere forms a group of
      its own, built from the default (empty) group. */
  lemma FirstToolStartsItsGroup(tool: Tool, activeIndex: Option<nat>)
    ensures LeftTool(NewStatusBar(), tool, activeIndex) == StatusBar(Some(ToolGroup(activeIndex, [tool])), None, None)
    ensures RightTool(NewStatusBar(), tool, activeIndex) == StatusBar(None, Some(ToolGroup(activeIndex, [tool])), None)
    ensures BottomTool(NewStatusBar(), tool, activeIndex) == StatusBar(None, None, Some(ToolGroup(activeIndex, [tool])))
  {
    assert [tool] + EMPTY_GROUP.tools == [tool];
  }

  /** `s` back to front. */
  function Reversed<T>(s: seq<T>): seq<T>
  {
    if s == [] then [] else Reversed(s[1..]) + [s[0]]
  }

  /** `left_tool` called once per tool of `tools`, in order, each with `activeIndex`. */
  function LeftTools(bar: StatusBar, tools: seq<Tool>, activeIndex: Option<nat>): StatusBar
    decreases |tools|
  {
    if tools == [] then bar else LeftTools(LeftTool(bar, tools[0], activeIndex), tools[1..], activeIndex)
  }

  /** Because each call puts its tool in front, a chain of `left_tool` calls
      lists the tools newest first, ahead of those the bar already had; the
      other groups never change. */
  lemma {:induction false} LeftToolsNewestFirst(bar: StatusBar, tools: seq<Tool>, activeIndex: Option<nat>)
    requires tools != []
    ensures LeftTools(bar, tools, activeIndex).left == Some(ToolGroup(activeIndex, Reversed(tools) + ToolsOf(bar.left)))
    ensures LeftTools(bar, tools, activeIndex).right == bar.right
    ensures LeftTools(bar, tools, activeIndex).bottom == bar.bottom
    decreases |tools|
  {
    var bar1 := LeftTool(bar, tools[0], activeIndex);
    var rest := tools[1..];
    var earlier := ToolsOf(bar.left);
    var result := LeftTools(bar, tools, activeIndex);
    assert result == LeftTools(bar1, rest, activeIndex);
    assert bar1 == bar.(left := Some(ToolGroup(activeIndex, [tools[0]] + earlier)));
    if rest == [] {
      assert result == bar1;
      assert Reversed(tools) == [tools[0]];
    } else {
      LeftToolsNewestFirst(bar1, rest, activeIndex);
      assert result.left == Some(ToolGroup(activeIndex, Reversed(rest) + ([tools[0]] + earlier)));
      assert Reversed(tools) == Reversed(rest) + [tools[0]];
      assert Reversed(rest) + ([tools[0]] + earlier) == Reversed(tools) + earlier;
    }
  }

  /** The old right group plays no part in `right_tool`, and the old bottom group
      none in `bottom_tool`: both are discarded whatever they held. */
  lemma ReplacedGroupIsDiscarded(bar: StatusBar, previous: Option<ToolGroup>, tool: Tool, activeIndex: Option<nat>)
    ensures RightTool(bar.(right := previous), tool, activeIndex) == RightTool(bar, tool, activeIndex)
    ensures BottomTool(bar.(bottom := previous), tool, activeIndex) == BottomTool(bar, tool, activeIndex)
  {
  }

  /** As written, a tool put on the left and then one put on the right end up
      together in the right group, and the left group is gone. */
  lemma RightToolTakesLeftGroup()
    ensures RightTool(LeftTool(NewStatusBar(), Terminal, None), Assistant, None)
         == StatusBar(None, Some(ToolGroup(None, [Assistant, Terminal])), None)
  {
    FirstToolStartsItsGroup(Terminal, None);
    assert [Assistant] + [Terminal] == [Assistant, Terminal];
  }

  /** As written, the same happens with a tool put at the bottom. */
  lemma BottomToolTakesLeftGroup()
    ensures BottomTool(LeftTool(NewStatusBar(), Terminal, None), Diagnostics, None)
         == StatusBar(None, None, Some(ToolGroup(None, [Diagnostics, Terminal])))
  {
    FirstToolStartsItsGroup(Terminal, None);
    assert [Diagnostics] + [Terminal] == [Diagnostics, Terminal];
  }

  /** `right_tool` as evidently intended: extends the right group and leaves the
      left one alone. */
  function RightToolIntended(bar: StatusBar, tool: Tool, activeIndex: Option<nat>): (bar': StatusBar)
    ensures bar'.right == Some(ToolGroup(activeIndex, [tool] + ToolsOf(bar.right)))
    ensures bar'.left == bar.left && bar'.bottom == bar.bottom
  {
    bar.(right := Some(ToolGroup(activeIndex, [tool] + ToolsOf(bar.right))))
  }

  /** `bottom_tool` as evidently intended: extends the bottom group and leaves the
      left one alone. */
  function BottomToolIntended(bar: StatusBar, tool: Tool, activeIndex: Option<nat>): (bar': StatusBar)
    ensures bar'.bottom == Some(ToolGroup(activeIndex, [tool] + ToolsOf(bar.bottom)))
    ensures bar'.left == bar.left && bar'.right == bar.right
  {
    bar.(bottom := Some(ToolGroup(activeIndex, [tool] + ToolsOf(bar.bottom))))
  }

  /** With the intended builders each group is built independently: putting a
      tool on one side and another on a different side gives the same bar in
      either order. */
  lemma IntendedBuildersCommute(bar: StatusBar, l: Tool, r: Tool, b: Tool, li: Option<nat>, ri: Option<nat>, bi: Option<nat>)
    ensures RightToolIntended(LeftTool(bar, l, li), r, ri) == LeftTool(RightToolIntended(bar, r, ri), l, li)
    ensures BottomToolIntended(LeftTool(bar, l, li), b, bi) == LeftTool(BottomToolIntended(bar, b, bi), l, li)
    ensures BottomToolIntended(RightToolIntended(bar, r, ri), b, bi) == RightToolIntended(BottomToolIntended(bar, b, bi), r, ri)
  {
  }

  /** The builders as written do not commute: the same two calls in the other
      order leave a different bar. */
  lemma WrittenBuildersDoNotCommute()
    ensures RightTool(LeftTool(NewStatusBar(), Terminal, None), Assistant, None)
         != LeftTool(RightTool(NewStatusBar(), Assistant, None), Terminal, None)
  {
    assert RightTool(LeftTool(NewStatusBar(), Terminal, None), Assistant, None).left.None?;
  }
}
