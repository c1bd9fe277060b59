# Axis layout and text field, modelled in Dafny

This project models two parts of a Java UI toolkit built on PlayN.

**`AxisLayout`** (module `Axis`, `axis.dfy`) is a two-pass box layout.
- **Pass one.** `computeMetrics` walks the visible children once. It collects their count, the sums and maxima of their preferred widths and heights, the sums over non-stretched children, and the stretch count and total weight.
- **Pass two.** `layout` walks the children again with an on-axis cursor. Each visible child gets:
  - an on-axis length from its `Constraint`: its preferred length, or its weight's share of the space left after the gaps and the fixed children;
  - an off-axis length from the `Policy`;
  - an off-axis position from the `Align`.

  The cursor then moves on by the child's length plus the gap.
- **`computeSize`** reports the preferred size of the group.
- **Fluent setters** configure the layout. A new layout is CENTER / CENTER, gap 5, policy DEFAULT.

**`Field`** (module `Field`, `field.dfy`) models the editing state of a text field.
- **State:** the text and the cursor.
- **Operations:**
  - `moveCursor` clamps the cursor to the text;
  - a click scans the character boundaries for the cursor;
  - `focus()` picks the position before the last character;
  - while the field has focus, a `FieldListener` turns key presses and typed characters into cursor moves and text splices.

Modelling choices:
- **Sizes are `real`.** The proportional shares and alignment offsets therefore hold exactly.
- **One `AxisLayout` class.** The source's `Vertical` and `Horizontal` classes are the same code with the two axes exchanged. The model has a single `AxisLayout` class with a constant `orientation`. `On()`/`Off()` pick the dimension along and across the axis.
- **Elements.** An element is a value with an identity, a visibility flag and a fixed preferred size.
- **Constraint map.** The map is `Option<map<nat, Constraint>>` keyed by element identity. `None` is a null map.
- **Layout output.** `Layout` returns, per element, the bounds it would give the element through `resize`/`setLocation`. Invisible elements get `None`.
- **Specification functions.** Each loop of the source is a `method` proved equal to a specification function:
  - `ComputeMetrics` against `MetricsOf`;
  - `Layout` against `Placement`;
  - `ClickCursor` against `ClickedCursor`.

  Lemmas then state what those functions mean.

Three behaviours of the code that a reader might not expect, all kept by the model:
- `computeSize` with no visible element reports `-gap` on the axis, because `_gap * (m.count - 1)` is not clamped (AxisLayout.java:117, 170); see `Axis.EmptyGroupSize`.
- `stretched(weight)` does not check the weight (AxisLayout.java:221-223).
- The start of an unstretched group is `alignOn.computeOffset(totalPreferred, extent)` (AxisLayout.java:126, 179). So CENTER centres only the preferred lengths, not the gaps, and a centred group with gaps sits `gap * (n - 1) / 2` past the centre. The 10/15/5 row in a 100-wide container with gap 5 therefore starts at 35; see `Axis.ExampleRowPlacements`.

## Model

| member | source | states |
|---|---|---|
| Axis.Align.ComputeOffset | src/main/java/com/threerings/ui/AxisLayout.java:31-49 | START gives offset 0. CENTER leaves equal margins on both sides. END puts the content flush with the end of the extent. |
| Axis.Policy.ComputeSize | src/main/java/com/threerings/ui/AxisLayout.java:52-70 | DEFAULT keeps the preferred size, STRETCH takes the available extent, EQUALIZE takes the largest sibling's size. |
| Axis.Constraint.ComputeSize | src/main/java/com/threerings/ui/AxisLayout.java:82-84 | An unstretched element keeps its preferred size. A stretched one gets `availSize * weight / totalWeight`, which needs a nonzero total weight. |
| Axis.PortionAdd | src/main/java/com/threerings/ui/AxisLayout.java:82-84 | Shares of the same space add up by weight. |
| Axis.PortionBounds | src/main/java/com/threerings/ui/AxisLayout.java:82-84 | The whole weight receives the whole space and weight 0 receives nothing. |
| Axis.StretchedBy | src/main/java/com/threerings/ui/AxisLayout.java:213-223 | `stretched(weight)` is a stretched constraint with exactly that weight, unchecked. Weight 1 equals the shared `UNIFORM_STRETCHED`. |
| Axis.GetConstraint | src/main/java/com/threerings/ui/AxisLayout.java:301-304 | A mapped element gets its own constraint. A null map or an unmapped element gets `UNSTRETCHED`, which is unstretched with weight 1 (line 326). |
| Axis.MaxOf | src/main/java/com/threerings/ui/AxisLayout.java:285-286 | The running maximum starts from 0. It is at least every preferred length and is either 0 or one of them. |
| Axis.MetricsOverVisible | src/main/java/com/threerings/ui/AxisLayout.java:277-286 | `count` is the number of visible elements. The totals are their preferred-size sums and the maxima their largest preferred sizes. |
| Axis.MetricsOverFixed | src/main/java/com/threerings/ui/AxisLayout.java:288-295 | `fixWidth`/`fixHeight` sum the preferred sizes of the visible, non-stretched elements only. |
| Axis.MetricsOverStretched | src/main/java/com/threerings/ui/AxisLayout.java:288-292 | `stretchCount` counts the visible, stretched elements, and `totalWeight` sums their weights. |
| Axis.MetricsCharacterized | src/main/java/com/threerings/ui/AxisLayout.java:272-299 | All nine metrics at once, each as a count, sum or maximum over the right filter of the elements. |
| Axis.MetricsSkipInvisible | src/main/java/com/threerings/ui/AxisLayout.java:277-278 | The metrics of the elements equal the metrics of their visible subsequence. |
| Axis.InvisibleIgnored | src/main/java/com/threerings/ui/AxisLayout.java:278 | Appending an invisible element changes neither the metrics nor the reported size. |
| Axis.FixedPlusStretched | src/main/java/com/threerings/ui/AxisLayout.java:288-295 | Each total is the fixed sum plus the stretched elements' preferred sizes. The stretch count is at most the count. |
| Axis.AxisLayout.ComputeMetrics | src/main/java/com/threerings/ui/AxisLayout.java:272-299 | The loop over a mutable `Metrics` ends with exactly `MetricsOf(elems)`, whose meaning `MetricsCharacterized` gives. |
| Axis.PreferredSize | src/main/java/com/threerings/ui/AxisLayout.java:113-118 | On the axis: the visible preferred lengths plus `gap * (n - 1)`. Off the axis: the largest visible preferred length. The mirror for `Horizontal` is at lines 166-171. |
| Axis.AxisLayout.ComputeSize | src/main/java/com/threerings/ui/AxisLayout.java:166-171 | Reports `PreferredSize` for the layout's current orientation and gap. |
| Axis.EmptyGroupSize | src/main/java/com/threerings/ui/AxisLayout.java:117 | With no visible element the on-axis size is `-gap` and the off-axis size is 0. |
| Axis.StretchExtent | src/main/java/com/threerings/ui/AxisLayout.java:125 | The space left for stretched elements is never negative. It equals `extent - gaps - fixed` or 0, and is never below that difference. |
| Axis.AdvanceDecomposed | src/main/java/com/threerings/ui/AxisLayout.java:127-135 | The cursor's advance is the fixed lengths, plus the stretched lengths, plus one gap per visible element. |
| Axis.StretchShareProportional | src/main/java/com/threerings/ui/AxisLayout.java:132 | The stretched elements' lengths together are the share their summed weights receive. |
| Axis.AdvanceSkipsInvisible | src/main/java/com/threerings/ui/AxisLayout.java:128 | A run of invisible elements does not move the cursor. |
| Axis.PlacementOnAxis | src/main/java/com/threerings/ui/AxisLayout.java:128-133 | An element is placed exactly when visible. Its on-axis length is its preferred length, or, when stretched, `stretchExtent * weight / totalWeight`. |
| Axis.PlacementOffAxis | src/main/java/com/threerings/ui/AxisLayout.java:131-134 | The off-axis length follows the policy; EQUALIZE gives the largest visible preferred length. The off-axis position is the off-alignment offset of that length. |
| Axis.FirstPlacement | src/main/java/com/threerings/ui/AxisLayout.java:126 | The first visible element starts at 0 when any element is stretched. Otherwise it starts where the on-alignment puts the total preferred length. |
| Axis.NextPlacement | src/main/java/com/threerings/ui/AxisLayout.java:135 | Each later visible element starts at the previous one's position plus its length plus the gap. |
| Axis.UnstretchedPlacement | src/main/java/com/threerings/ui/AxisLayout.java:126-135 | With nothing stretched, each element has its preferred length. Its position is the aligned start plus the preferred lengths and gaps of the visible elements before it. |
| Axis.StretchedSharesFill | src/main/java/com/threerings/ui/AxisLayout.java:125-132 | With something stretched, the stretched lengths add up to exactly the stretch extent. |
| Axis.UnstretchedGroupEnd | src/main/java/com/threerings/ui/AxisLayout.java:126-135 | With nothing stretched, the cursor ends at the aligned start plus the reported on-axis size plus one gap. |
| Axis.StretchedGroupEnd | src/main/java/com/threerings/ui/AxisLayout.java:125-135 | With something stretched and room for the fixed elements and gaps, the group fills the extent exactly. |
| Axis.AxisLayout.Layout | src/main/java/com/threerings/ui/AxisLayout.java:120-137 | One bounds per element. It equals `Placement` for the current settings and is absent exactly for invisible elements. The mirror for `Horizontal` is at lines 173-190. |
| Axis.AxisLayout.Vertical | src/main/java/com/threerings/ui/AxisLayout.java:197-199 | A vertical layout with CENTER / CENTER, gap 5 and DEFAULT (lines 322-324). |
| Axis.AxisLayout.Horizontal | src/main/java/com/threerings/ui/AxisLayout.java:205-207 | A horizontal layout with the same defaults. |
| Axis.AxisLayout.AlignOn | src/main/java/com/threerings/ui/AxisLayout.java:228-231 | Sets the on-axis alignment and leaves the other settings unchanged. |
| Axis.AxisLayout.AlignOff | src/main/java/com/threerings/ui/AxisLayout.java:236-239 | Sets the off-axis alignment and leaves the other settings unchanged. |
| Axis.AxisLayout.OffPolicy | src/main/java/com/threerings/ui/AxisLayout.java:244-247 | Sets the off-axis policy and leaves the other settings unchanged. |
| Axis.AxisLayout.OffStretch | src/main/java/com/threerings/ui/AxisLayout.java:252-254 | Sets the policy to STRETCH and leaves the other settings unchanged. |
| Axis.AxisLayout.OffEqualize | src/main/java/com/threerings/ui/AxisLayout.java:260-262 | Sets the policy to EQUALIZE and leaves the other settings unchanged. |
| Axis.AxisLayout.Gap | src/main/java/com/threerings/ui/AxisLayout.java:267-270 | Sets the gap and leaves the other settings unchanged. |
| Axis.AxisLayout.AlignTop | src/main/java/com/threerings/ui/AxisLayout.java:90-93 | Vertical: on-axis START. Horizontal: off-axis START (lines 155-158). The other settings are unchanged. |
| Axis.AxisLayout.AlignBottom | src/main/java/com/threerings/ui/AxisLayout.java:96-99 | Vertical: on-axis END. Horizontal: off-axis END (lines 161-164). |
| Axis.AxisLayout.AlignLeft | src/main/java/com/threerings/ui/AxisLayout.java:102-105 | Vertical: off-axis START. Horizontal: on-axis START (lines 143-146). |
| Axis.AxisLayout.AlignRight | src/main/java/com/threerings/ui/AxisLayout.java:108-111 | Vertical: off-axis END. Horizontal: on-axis END (lines 149-152). |
| Axis.ExampleRowPlacements | src/main/java/com/threerings/ui/AxisLayout.java:173-190 | Elements 10, 15 and 5 wide, all 20 high, with horizontal defaults in 100 x 20. The size is (40, 20) and the bounds are (35,0,10,20), (50,0,15,20), (70,0,5,20). |
| Axis.HorizontalExample | src/main/java/com/threerings/ui/AxisLayout.java:166-190 | The same example through a `horizontal()` object's `computeSize` and `layout`. |
| Axis.StretchedExample | src/main/java/com/threerings/ui/AxisLayout.java:120-137 | One stretched element of weight 1 in a vertical layout of height 50 gets height 50. |
| Field.Clamp | src/main/java/tripleplay/ui/Field.java:197 | The result is a boundary of the text. It equals the position when that is in range, and otherwise the nearer end. |
| Field.Field.MovedTo | src/main/java/tripleplay/ui/Field.java:195-199 | With a cursor layer the new cursor is `pos` clamped to `[0, text length]`: the position when in range, otherwise the nearer end. Without a layer the cursor does not change. |
| Field.Field.MoveCursor | src/main/java/tripleplay/ui/Field.java:195-210 | The cursor becomes `MovedTo(pos)` and nothing else changes. |
| Field.InsertAt | src/main/java/tripleplay/ui/Field.java:263 | The text grows by one. The character is at the cursor, the text before it is kept and the text after it is shifted by one. As multisets, exactly `ch` is added. |
| Field.RemoveAt | src/main/java/tripleplay/ui/Field.java:241 | The text shrinks by one. The text before the index is kept and the text after it is shifted left. As multisets, exactly the removed character is lost. |
| Field.SpliceRoundTrip | src/main/java/tripleplay/ui/Field.java:238-264 | Backspacing over a character just typed restores the text. Re-inserting a character just deleted restores the text. |
| Field.CursorX | src/main/java/tripleplay/ui/Field.java:166-167 | The first boundary is at x 0; the others come from the text measurement. |
| Field.FirstReached | src/main/java/tripleplay/ui/Field.java:129-131 | The first boundary not left of the click: all earlier ones are left of it, and there are none when it is the text length. |
| Field.ClickedCursor | src/main/java/tripleplay/ui/Field.java:127-137 | The scan's result lies in `[-1, len]`. It is -1 exactly when the text is non-empty and the click is left of x 0. |
| Field.ClickBracketed | src/main/java/tripleplay/ui/Field.java:129-137 | With offsets growing left to right, the click lies after the previous boundary and no later than every following one. |
| Field.Field.ClickCursor | src/main/java/tripleplay/ui/Field.java:127-137 | The `while` loop with `break` computes `ClickedCursor` for the current text. |
| Field.FocusCursor | src/main/java/tripleplay/ui/Field.java:92 | `max(0, len - 1)`: before the last character, or 0 for an empty text, always in range. |
| Field.Field.Focus | src/main/java/tripleplay/ui/Field.java:89-95 | Unattached, nothing changes. Attached with a keyboard, the cursor is `FocusCursor` and a fresh listener remembers the text. |
| Field.Field.StartFocus | src/main/java/tripleplay/ui/Field.java:142-153 | With a hardware keyboard: a fresh listener on this field, holding the current text, and the requested cursor. |
| Field.Field.OnPointerStart | src/main/java/tripleplay/ui/Field.java:116-140 | A disabled or unattached field is unchanged. Otherwise the cursor ends at the unclamped scan result and the field is focused. |
| Field.Field.DisplayText | src/main/java/tripleplay/ui/Field.java:105-110 | Never empty: `" "` for an empty text, the text otherwise. |
| Field.Field.constructor | src/main/java/tripleplay/ui/Field.java:45-49 | A field holding the initial text, cursor 0 and no listener. |
| Field.FieldListener.constructor | src/main/java/tripleplay/ui/Field.java:213-215 | The listener remembers the field's text as `_initial` (line 269) and writes the given cursor into the field unclamped. |
| Field.FieldListener.OnKeyDown | src/main/java/tripleplay/ui/Field.java:217-259 | Covers every key. HOME/END/LEFT/RIGHT move the cursor through `moveCursor`. ENTER drops the focus and ESCAPE also restores `_initial`. BACKSPACE removes before a nonzero cursor and steps back; DELETE removes at a cursor before the end. Other keys change nothing and do not prevent the default. Except for ESCAPE, a cursor within the text stays within it. |
| Field.FieldListener.OnKeyTyped | src/main/java/tripleplay/ui/Field.java:261-267 | The text becomes the typed character spliced in at the cursor, and the cursor steps over it and stays within the text. |

## Left out

- Floating point: sizes are `real`, so `float` rounding is not modelled. Neither is the Infinity or NaN that a zero total weight would produce.
- Axis.AxisLayout.Layout: requires that, when any visible element is stretched, the stretched weights do not sum to 0. Java's float division would give Infinity or NaN there, which reals do not have. `Axis.Placement`, `Axis.Advance` and the placement lemmas carry the same condition.
- Preferred sizes: `getPreferredSize(hintX, hintY)` is a fixed per-element value. The hints and the size caching are not modelled.
- Integer width: `gap * (count - 1)` is an unbounded integer; 32-bit overflow is not modelled.
- `Metrics`: it is a value updated by reassignment and built afresh by each `computeMetrics` call. No other code holds it.
- Fluent setters: their `return this` is not modelled, the methods change the layout only.
- `Layout` base-class behaviour and the `resize`/`setLocation` side effects: the model returns the bounds instead.
- Field rendering: the cursor `ImmediateLayer`, its translation and visibility, styles, and `createTextLayer` are not modelled. That re-layout re-applies `moveCursor` to the current cursor.
- Text measurement: `getCursorX` is the parameter `measure` for the current text, with the first boundary fixed at 0. Layer coordinates become the parameter `clickX`.
- Platform and root: the hardware keyboard is the constant `hardwareKeyboard`, and the cursor layer exists exactly when it is set. Being attached to a `Root` and being enabled are parameters.
- Focus wiring: the root's focused-listener value, its once-only slot and the `defocused` signal are not modelled. ENTER and ESCAPE are modelled as clearing the field's listener, which is what that slot does. What re-focusing an already focused field does through the slot is not modelled.
- Strings: a Java `String` is a sequence of UTF-16 code units, and `length()`, `substring` and `typedChar()` count code units. The model's `string` is a sequence of Unicode scalar values, which cannot hold a lone surrogate. So on text with supplementary characters the model's lengths and indices differ from the source's. The source's `focus()`, BACKSPACE and DELETE (Field.java:92, 241, 248) can also leave the cursor inside a surrogate pair, or remove half of one; the model cannot express either. For text without surrogates the model is exact.
- Null text: the `null` text that `text()` maps to `" "` (Field.java:109) is not modelled, because a model string is never null. Only the empty case is.
- Text updates: the reactive `Value` and `textDidChange` wiring are not modelled; the text is a plain field.
- Pop-up text entry: without a hardware keyboard, `startFocus` opens a dialog with an asynchronous callback (Field.java:155-163). The model leaves the field unchanged on that path.
- `setPreventDefault`: `OnKeyDown` returns the flag. `OnKeyTyped` always sets it, so it returns nothing.
- Field.FieldListener.OnKeyDown: requires `0 <= cursor <= |text|` for BACKSPACE and `cursor >= 0` for DELETE. Outside those ranges the Java `substring` calls throw, and exceptions are not modelled.
- Field.FieldListener.OnKeyTyped: requires `0 <= cursor <= |text|`. Outside it `substring` throws.
- Field.FieldListener.OnKeyDown: ESCAPE keeps the cursor, which can exceed the restored text's length. The range property is therefore stated for every key except ESCAPE.
- Listener cursor: the `FieldListener` constructor stores the unclamped scan result, so a click left of a non-empty text leaves the cursor at -1. The model keeps this as the code's behaviour and proves nothing that depends on the cursor being valid there.
- Other `Field` members: `maybeFocus`, `isFocused` (modelled as `IsFocused` with no contract), `setTextType`, `setPopupLabel` and `icon` are rendering or platform configuration.
- `Slider.java` is not part of this model: it is input-event and drawing code around one float mapping.
