/** The editor a user has in mind: a text, a cursor and the other end of the
    selection as plain positions. No window, no offset, no scroll bounds. */
module FlatEditor {
  import opened Decimals
  import opened Results
  import opened Words
  import opened Keys

  datatype Flat = Flat(text: string, front: nat, back: nat, clip: string, dirty: bool)

  datatype Rules = Rules(lenMax: nat, numbersOnly: bool, page: nat)

  datatype Reply = Reply(flat: Flat, done: bool)

  /** A text may be longer than the limit; it only does not grow then. */
  predicate Within(f: Flat) {
    f.front <= |f.text| && f.back <= |f.text|
  }

  function Low(f: Flat): nat {
    if f.front <= f.back then f.front else f.back
  }

  function High(f: Flat): nat {
    if f.front <= f.back then f.back else f.front
  }

  function Selected(f: Flat): string
    requires f.front <= |f.text| && f.back <= |f.text|
  {
    f.text[Low(f)..High(f)]
  }

  /** The longest prefix of `ins` that still fits beside `used` characters. */
  function Fitting(used: nat, ins: string, lenMax: nat): (pre: string)
    ensures pre <= ins && used + |pre| <= Max(used, lenMax)
    ensures pre == ins || used + |pre| >= lenMax
  {
    if used + |ins| <= lenMax then ins else ins[..Max(lenMax - used, 0)]
  }

  lemma FittingPrefix(used: nat, ins: string, lenMax: nat, len: nat)
    requires used <= lenMax && len == Min(used + |ins|, lenMax) - used
    ensures Fitting(used, ins, lenMax) == ins[..len]
  {
  }

  /** Replace the selection and put both ends behind the insertion. */
  function Replace(f: Flat, ins: string, r: Rules): (g: Flat)
    requires Within(f)
    ensures Within(g) && g.clip == f.clip && g.dirty == f.dirty && |g.text| <= Max(|f.text|, r.lenMax)
  {
    var pre := Fitting(|f.text| - (High(f) - Low(f)), ins, r.lenMax);
    f.(text := f.text[..Low(f)] + pre + f.text[High(f)..],
       front := Low(f) + |pre|,
       back := Low(f) + |pre|)
  }

  /** The text around the selection stays, and between it stands the insertion as far as it fits. */
  lemma ReplaceSplices(f: Flat, ins: string, r: Rules)
    requires Within(f)
    ensures var g, lo, hi := Replace(f, ins, r), Low(f), High(f);
            && lo <= g.front == g.back <= |g.text|
            && g.text[..lo] == f.text[..lo] && g.text[g.front..] == f.text[hi..]
            && g.text[lo..g.front] <= ins
            && |g.text| <= Max(|f.text| - (hi - lo), r.lenMax)
            && (g.text[lo..g.front] == ins || |g.text| >= r.lenMax)
  {
  }

  // ---- words

  /** A jump to the right stops at the end and where a word ends. */
  predicate RightStop(text: string, at: nat)
    requires 0 < at <= |text|
  {
    at == |text| || (!IsBoundary(text[at - 1]) && IsBoundary(text[at]))
  }

  /** A jump to the left stops at the start and where a word begins. */
  predicate LeftStop(text: string, at: nat)
    requires at < |text|
  {
    at == 0 || (IsBoundary(text[at - 1]) && !IsBoundary(text[at]))
  }

  function WordRight(text: string, at: nat): (stop: nat)
    requires at <= |text|
    ensures at == |text| ==> stop == at
    ensures at < |text| ==> at < stop <= |text| && RightStop(text, stop)
    ensures forall i :: at < i < stop ==> !RightStop(text, i)
    decreases |text| - at
  {
    if at == |text| then at
    else if RightStop(text, at + 1) then at + 1
    else WordRight(text, at + 1)
  }

  function WordLeft(text: string, at: nat): (stop: nat)
    requires at <= |text|
    ensures at == 0 ==> stop == 0
    ensures at > 0 ==> stop < at && LeftStop(text, stop)
    ensures forall i :: stop < i < at ==> !LeftStop(text, i)
  {
    if at == 0 then at
    else if LeftStop(text, at - 1) then at - 1
    else WordLeft(text, at - 1)
  }

  lemma WordRightStep(text: string, at: nat)
    requires at < |text|
    ensures WordRight(text, at)
         == if at + 1 == |text| || (!IsBoundary(text[at]) && IsBoundary(text[at + 1])) then at + 1
            else WordRight(text, at + 1)
  {
  }

  lemma WordLeftStep(text: string, at: nat)
    requires 0 < at <= |text|
    ensures WordLeft(text, at)
         == if at == 1 || (IsBoundary(text[at - 2]) && !IsBoundary(text[at - 1])) then at - 1
            else WordLeft(text, at - 1)
  {
  }

  // ---- keys

  /** Where a navigation key sends the cursor; None for any other key. */
  function Target(f: Flat, r: Rules, key: KeyUser): (t: Option<nat>)
    requires Within(f)
    ensures t.Some? ==> t.value <= |f.text|
  {
    if !key.Ctrl? then None
    else if key.code == KEY_HOME then Some(0)
    else if key.code == KEY_END then Some(|f.text|)
    else if key.code == KEY_LEFT && key.ctrl then Some(WordLeft(f.text, f.front))
    else if key.code == KEY_RIGHT && key.ctrl then Some(WordRight(f.text, f.front))
    else if key.code == KEY_LEFT || key.code == KEY_UP then Some(Max(f.front - 1, 0))
    else if key.code == KEY_RIGHT || key.code == KEY_DOWN then Some(Min(f.front + 1, |f.text|))
    else if key.code == KEY_PGUP then Some(Max(f.front - r.page, 0))
    else if key.code == KEY_PGDN then Some(Min(f.front + r.page, |f.text|))
    else None
  }

  /** Keys that put something, possibly nothing, in the place of the selection. */
  predicate Replaces(f: Flat, r: Rules, key: KeyUser) {
    || IsCode(key, KEY_CTRL_X)
    || (f.front != f.back
        && (IsBackspace(key) || IsCode(key, KEY_DELETE)
            || (key.Print? && (r.numbersOnly ==> IsDigit(key.ch)))))
  }

  function Press(f: Flat, r: Rules, key: KeyUser): (p: Reply)
    requires Within(f)
    ensures Within(p.flat) && |p.flat.text| <= Max(|f.text|, r.lenMax)
  {
    var q := f.(dirty := false);
    var t := Target(f, r, key);
    if IsCode(key, KEY_CTRL_C) then
      Reply(q.(clip := Selected(f)), true)
    else if Replaces(f, r, key) then
      var c := if IsCode(key, KEY_CTRL_X) then q.(clip := Selected(f)) else q;
      Reply(Replace(c, if key.Print? then [key.ch] else "", r).(dirty := true), true)
    else if IsCode(key, KEY_CTRL_A) then
      Reply(q.(front := |f.text|, back := 0, dirty := f.back != 0 || f.front != |f.text|), true)
    else if t.Some? then
      if HasShift(key) then Reply(q.(front := t.value, dirty := t.value != f.front), t.value != f.front)
      else Reply(q.(front := t.value, back := t.value, dirty := true), true)
    else if IsBackspace(key) && f.front > 0 then
      Reply(q.(text := f.text[..f.front - 1] + f.text[f.front..],
               front := f.front - 1, back := f.front - 1, dirty := true), true)
    else if IsCode(key, KEY_DELETE) && f.front < |f.text| then
      Reply(q.(text := f.text[..f.front] + f.text[f.front + 1..], back := f.front, dirty := true), true)
    else if key.Print? && (r.numbersOnly ==> IsDigit(key.ch)) && |f.text| < r.lenMax then
      Reply(q.(text := f.text[..f.front] + [key.ch] + f.text[f.front..],
               front := f.front + 1, back := f.front + 1, dirty := true), true)
    else
      Reply(q, false)
  }

  /** Select `len` characters from `start`; a length of 0 selects up to the end. */
  function Select(f: Flat, start: u16, len: u16): (g: Flat)
    ensures g.text == f.text && g.front <= |f.text| && g.back <= |f.text|
  {
    var first := Min(start, |f.text|);
    var last := if len == 0 || Add16(start, len) > |f.text| then |f.text| else Add16(start, len);
    f.(back := first, front := Max(first, last))
  }
}
