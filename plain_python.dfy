/** `convert_to_plain_python`, which both scaffold filter plugins define
    in the same words: Ansible's text wrappers become plain `str`, and
    dicts and lists are rebuilt with their contents converted. */
module PlainPython {
  import opened JsonValue

  /** The style a string keeps: Ansible's wrappers become plain `str`,
      any other `str` class is returned as it is. */
  function PlainStyle(style: StrStyle): StrStyle {
    if style == AnsibleText then Plain else style
  }

  /** `convert_to_plain_python(obj)`. Keys are converted too, which never
      changes their content. */
  function ToPlain(j: Json): (r: Json)
    decreases j
  {
    match j
    case JStr(s, style) => JStr(s, PlainStyle(style))
    case JObj(fields) => JObj(seq(|fields|, i requires 0 <= i < |fields| => (fields[i].0, ToPlain(fields[i].1))))
    case JList(items) => JList(seq(|items|, i requires 0 <= i < |items| => ToPlain(items[i])))
    case _ => j
  }

  /** No Ansible text wrapper occurs anywhere in `j`. */
  predicate Unwrapped(j: Json)
    decreases j
  {
    match j
    case JStr(_, style) => style != AnsibleText
    case JObj(fields) => forall i :: 0 <= i < |fields| ==> Unwrapped(fields[i].1)
    case JList(items) => forall i :: 0 <= i < |items| ==> Unwrapped(items[i])
    case _ => true
  }

  /** `j` with every string made a plain `str`: the value as Python's
      `==` sees it, since all `str` classes compare by content. */
  function Erase(j: Json): Json
    decreases j
  {
    match j
    case JStr(s, _) => JStr(s, Plain)
    case JObj(fields) => JObj(seq(|fields|, i requires 0 <= i < |fields| => (fields[i].0, Erase(fields[i].1))))
    case JList(items) => JList(seq(|items|, i requires 0 <= i < |items| => Erase(items[i])))
    case _ => j
  }

  /** The conversion keeps the shape: the same kind of value, the same
      keys in the same order, the same list lengths and string contents. */
  lemma ToPlainShape(j: Json)
    ensures j.JObj? <==> ToPlain(j).JObj?
    ensures j.JList? <==> ToPlain(j).JList?
    ensures j.JStr? <==> ToPlain(j).JStr?
    ensures j.JObj? ==> Keys(ToPlain(j).fields) == Keys(j.fields)
    ensures j.JList? ==> |ToPlain(j).items| == |j.items|
    ensures j.JStr? ==> ToPlain(j).s == j.s
    ensures !j.JObj? && !j.JList? && !j.JStr? ==> ToPlain(j) == j
  {
    if j.JObj? {
      assert Keys(ToPlain(j).fields) == Keys(j.fields);
    }
  }

  /** The converted value holds no Ansible wrapper at any depth. */
  lemma {:induction false} ToPlainUnwrapped(j: Json)
    ensures Unwrapped(ToPlain(j))
    decreases j
  {
    match j
    case JObj(fields) =>
      forall i | 0 <= i < |fields| ensures Unwrapped(ToPlain(j).fields[i].1) {
        ToPlainUnwrapped(fields[i].1);
      }
    case JList(items) =>
      forall i | 0 <= i < |items| ensures Unwrapped(ToPlain(j).items[i]) {
        ToPlainUnwrapped(items[i]);
      }
    case _ =>
  }

  /** The conversion keeps every dict free of duplicate keys. */
  lemma {:induction false} ToPlainWellFormed(j: Json)
    requires WellFormed(j)
    ensures WellFormed(ToPlain(j))
    decreases j
  {
    match j
    case JObj(fields) =>
      forall i | 0 <= i < |fields| ensures WellFormed(ToPlain(j).fields[i].1) {
        ToPlainWellFormed(fields[i].1);
      }
      assert Keys(ToPlain(j).fields) == Keys(fields);
    case JList(items) =>
      forall i | 0 <= i < |items| ensures WellFormed(ToPlain(j).items[i]) {
        ToPlainWellFormed(items[i]);
      }
    case _ =>
  }

  /** A value without wrappers is returned unchanged; so converting twice
      is converting once. */
  lemma {:induction false} ToPlainFixed(j: Json)
    requires Unwrapped(j)
    ensures ToPlain(j) == j
    decreases j
  {
    match j
    case JObj(fields) =>
      forall i | 0 <= i < |fields| ensures ToPlain(fields[i].1) == fields[i].1 {
        ToPlainFixed(fields[i].1);
      }
      assert ToPlain(j).fields == fields;
    case JList(items) =>
      forall i | 0 <= i < |items| ensures ToPlain(items[i]) == items[i] {
        ToPlainFixed(items[i]);
      }
      assert ToPlain(j).items == items;
    case _ =>
  }

  /** `convert_to_plain_python` is idempotent. */
  lemma ToPlainIdempotent(j: Json)
    ensures ToPlain(ToPlain(j)) == ToPlain(j)
  {
    ToPlainUnwrapped(j);
    ToPlainFixed(ToPlain(j));
  }

  /** The converted value compares equal to the original. */
  lemma {:induction false} ToPlainEqual(j: Json)
    ensures Erase(ToPlain(j)) == Erase(j)
    decreases j
  {
    match j
    case JObj(fields) =>
      forall i | 0 <= i < |fields| ensures Erase(ToPlain(fields[i].1)) == Erase(fields[i].1) {
        ToPlainEqual(fields[i].1);
      }
      assert Erase(ToPlain(j)).fields == Erase(j).fields;
    case JList(items) =>
      forall i | 0 <= i < |items| ensures Erase(ToPlain(items[i])) == Erase(items[i]) {
        ToPlainEqual(items[i]);
      }
      assert Erase(ToPlain(j)).items == Erase(j).items;
    case _ =>
  }
}
