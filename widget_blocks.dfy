/**
 * `WidgetBlocks`: a content document's widget list becomes one `Block` per
 * widget, in document order, each keyed by the widget's `id` when that is
 * truthy and by `widget-<index>` otherwise.
 */
module WidgetBlocks {
  import opened Wrappers
  import opened JsStrings
  import opened WidgetBlock

  /** An id is truthy unless it is missing, the empty string or the number 0. */
  predicate IdTruthy(id: Option<WidgetId>) {
    match id
    case None => false
    case Some(StrId(s)) => s != ""
    case Some(NumId(n)) => n != 0
  }

  /** The key used for a widget without a truthy id. */
  function PositionalKey(index: nat): WidgetId {
    StrId("widget-" + NatToString(index))
  }

  /** `widget.id || \`widget-${index}\``. */
  function KeyFor<P>(w: Widget<P>, index: nat): (k: WidgetId)
    ensures IdTruthy(w.id) ==> k == w.id.value
    ensures !IdTruthy(w.id) ==> k == PositionalKey(index)
  {
    if IdTruthy(w.id) then w.id.value else PositionalKey(index)
  }

  /** One rendered child: its React key and the `Block` it renders. */
  datatype KeyedBlock<P> = KeyedBlock(key: WidgetId, block: Element<P>)

  /** The children `WidgetBlocks` renders; absent widgets default to the empty list. */
  function WidgetBlocks<P>(widgets: Option<seq<Widget<P>>>): (r: seq<KeyedBlock<P>>)
    ensures |r| == |widgets.GetOr([])|
    ensures forall i :: 0 <= i < |r| ==>
              r[i].block.props == widgets.GetOr([])[i] &&
              r[i].block.component == SetComponent(widgets.GetOr([])[i]) &&
              r[i].key == KeyFor(widgets.GetOr([])[i], i)
  {
    var ws := widgets.GetOr([]);
    seq(|ws|, i requires 0 <= i < |ws| => KeyedBlock(KeyFor(ws[i], i), Block(ws[i])))
  }

  /** A document without widgets renders nothing, and is not an error. */
  lemma NoWidgetsNoBlocks<P>()
    ensures WidgetBlocks<P>(None) == []
    ensures WidgetBlocks<P>(Some([])) == []
  {
  }

  /** Two different positions never share a positional key. */
  lemma PositionalKeysDistinct(i: nat, j: nat)
    requires i != j
    ensures PositionalKey(i) != PositionalKey(j)
  {
    var prefix := "widget-";
    if PositionalKey(i) == PositionalKey(j) {
      assert (prefix + NatToString(i))[|prefix|..] == NatToString(i);
      assert (prefix + NatToString(j))[|prefix|..] == NatToString(j);
      NatToStringInjective(i, j);
    }
  }

  /** Widgets without a truthy id get pairwise distinct keys. */
  lemma UnkeyedWidgetsDistinct<P>(widgets: seq<Widget<P>>, i: nat, j: nat)
    requires i < |widgets| && j < |widgets| && i != j
    requires !IdTruthy(widgets[i].id) && !IdTruthy(widgets[j].id)
    ensures WidgetBlocks(Some(widgets))[i].key != WidgetBlocks(Some(widgets))[j].key
  {
    PositionalKeysDistinct(i, j);
  }

  /** A falsy id (0 or "") falls back to the positional key. */
  lemma FalsyIdUsesPosition<P>(payload: P, t: Option<string>, index: nat)
    ensures KeyFor(Widget(t, Some(NumId(0)), payload), index) == PositionalKey(index)
    ensures KeyFor(Widget(t, Some(StrId("")), payload), index) == PositionalKey(index)
  {
  }

  /**
   * Positional keys are not reserved: an explicit id "widget-1" on the first
   * widget collides with the positional key of an id-less second widget.
   */
  lemma ExplicitIdCanShadowPosition<P>(p: P)
    ensures var ws := [Widget(None, Some(StrId("widget-1")), p), Widget(None, None, p)];
            WidgetBlocks(Some(ws))[0].key == WidgetBlocks(Some(ws))[1].key
  {
    assert NatToString(1) == "1";
  }
}
