/** The schema's type syntax (core/ir.py): `format_type` and `parse_type`. */
module TypeText {
  import opened Common
  import opened Ir
  import opened Strings

  function FormatType(t: Type): string {
    match t
    case TInt => "INT" case TFloat => "FLOAT" case TStr => "STR" case TBool => "BOOL"
    case TTime => "TIME" case TStatus => "STATUS" case TNull => "NULL"
    case TId(e) => "ID:" + e
    case TObj(e) => "OBJ:" + e
    case TList(elem) => "LIST " + FormatType(elem)
  }

  /** The index of the first colon, or |s|. */
  function Colon(s: string): (i: nat)
    ensures i <= |s|
    ensures i < |s| ==> s[i] == ':'
    ensures forall j | 0 <= j < i :: s[j] != ':'
  {
    if s == "" || s[0] == ':' then 0 else 1 + Colon(s[1..])
  }

  function BaseType(s: string): Option<Type> {
    if s == "INT" then Some(TInt) else if s == "FLOAT" then Some(TFloat) else if s == "STR" then Some(TStr)
    else if s == "BOOL" then Some(TBool) else if s == "TIME" then Some(TTime) else if s == "STATUS" then Some(TStatus)
    else if s == "NULL" then Some(TNull) else None
  }

  /** `parse_type`; None where it raises. An empty entity name is not part of this model. */
  function ParseType(text: string): Option<Type>
    decreases |text|
  {
    var s := Strip(text);
    if "LIST " <= s then
      match ParseType(s[5..])
      case None => None
      case Some(t) => Some(TList(t))
    else
      var i := Colon(s);
      if i < |s| then
        if i + 1 == |s| then None
        else if s[..i] == "ID" then Some(TId(s[i + 1..]))
        else if s[..i] == "OBJ" then Some(TObj(s[i + 1..]))
        else None
      else BaseType(s)
  }

  /** Entity names do not end in white space. */
  predicate Tidy(t: Type) {
    match t
    case TId(e) => !IsSpace(e[|e| - 1])
    case TObj(e) => !IsSpace(e[|e| - 1])
    case TList(elem) => Tidy(elem)
    case _ => true
  }

  lemma {:induction false} FormatEdges(t: Type)
    requires Tidy(t)
    ensures var s := FormatType(t); s != "" && !IsSpace(s[0]) && !IsSpace(s[|s| - 1])
    decreases t
  {
    match t
    case TList(elem) => FormatEdges(elem);
    case _ =>
  }

  lemma ColonAt(a: string, b: string)
    requires forall j | 0 <= j < |a| :: a[j] != ':'
    ensures Colon(a + ":" + b) == |a|
    decreases a
  {
    var s := a + ":" + b;
    assert s[|a|] == ':';
    assert forall j | 0 <= j < |a| :: s[j] == a[j];
  }

  lemma NoColon(s: string)
    requires forall j | 0 <= j < |s| :: s[j] != ':'
    ensures Colon(s) == |s|
  {
  }

  lemma BaseRoundTrip(t: Type)
    requires !t.TId? && !t.TObj? && !t.TList?
    ensures BaseType(FormatType(t)) == Some(t)
    ensures var s := FormatType(t); !("LIST " <= s) && forall j | 0 <= j < |s| :: s[j] != ':'
  {
    var s := FormatType(t);
    assert |s| < 5 || s[0] != "LIST "[0];
  }

  lemma ListRoundTrip(elem: Type)
    requires Tidy(elem) && ParseType(FormatType(elem)) == Some(elem)
    ensures ParseType(FormatType(TList(elem))) == Some(TList(elem))
  {
    hide Strip;
    var s := FormatType(TList(elem));
    FormatEdges(TList(elem));
    StripEdges(s);
    hide FormatType;
    assert s[..5] == "LIST " && s[5..] == FormatType(elem);
  }

  /** An entity-typed tag, its colon and the entity's name. */
  lemma TaggedParse(tag: string, e: string)
    requires tag == "ID" || tag == "OBJ"
    requires e != "" && !IsSpace(e[|e| - 1])
    ensures ParseType(tag + ":" + e) == Some(if tag == "ID" then TId(e) else TObj(e))
  {
    hide Strip;
    hide Colon;
    hide BaseType;
    var s := tag + ":" + e;
    assert s[0] == tag[0] && s[|s| - 1] == e[|e| - 1];
    StripEdges(s);
    ColonAt(tag, e);
    assert s[..|tag|] == tag && s[|tag| + 1..] == e;
    assert s[0] != "LIST "[0];
  }

  lemma PlainParse(s: string)
    requires s != "" && !IsSpace(s[0]) && !IsSpace(s[|s| - 1]) && !("LIST " <= s)
    requires forall j | 0 <= j < |s| :: s[j] != ':'
    ensures ParseType(s) == BaseType(s)
  {
    hide Strip;
    hide Colon;
    hide BaseType;
    StripEdges(s);
    NoColon(s);
  }

  /** A formatted type parses back to itself. */
  lemma {:induction false} TypeRoundTrip(t: Type)
    requires Tidy(t)
    ensures ParseType(FormatType(t)) == Some(t)
    decreases t
  {
    hide ParseType;
    hide BaseType;
    match t
    case TList(elem) =>
      TypeRoundTrip(elem);
      ListRoundTrip(elem);
    case TId(e) =>
      TaggedParse("ID", e);
      assert FormatType(t) == "ID" + ":" + e;
    case TObj(e) =>
      TaggedParse("OBJ", e);
      assert FormatType(t) == "OBJ" + ":" + e;
    case _ =>
      FormatEdges(t);
      BaseRoundTrip(t);
      PlainParse(FormatType(t));
  }

  /** So the syntax tells types apart. */
  lemma FormatInjective(a: Type, b: Type)
    requires Tidy(a) && Tidy(b) && FormatType(a) == FormatType(b)
    ensures a == b
  {
    TypeRoundTrip(a);
    TypeRoundTrip(b);
  }

  // ---------------------------------------------------------------- exactly the type syntax

  /** The text without white space around it writes the type. */
  ghost predicate Writes(core: string, t: Type)
    decreases t, 0
  {
    match t
    case TList(elem) => "LIST " <= core && Reads(core[5..], elem)
    case TId(e) => e != "" && core == "ID:" + e
    case TObj(e) => e != "" && core == "OBJ:" + e
    case TInt => core == "INT"
    case TFloat => core == "FLOAT"
    case TStr => core == "STR"
    case TBool => core == "BOOL"
    case TTime => core == "TIME"
    case TStatus => core == "STATUS"
    case TNull => core == "NULL"
  }

  /** The text writes the type, with white space around it allowed, also behind each LIST. */
  ghost predicate Reads(text: string, t: Type)
    decreases t, 1
  {
    exists p, core, q :: text == p + core + q && Spaces(p) && Spaces(q) && Bare(core) && Writes(core, t)
  }

  lemma ColonSplit(s: string)
    ensures var i := Colon(s); i < |s| ==> s == s[..i] + ":" + s[i + 1..]
  {
  }

  /** `ParseType` reads the stripped text only. */
  lemma StrippedParse(text: string)
    ensures Strip(Strip(text)) == Strip(text) && ParseType(Strip(text)) == ParseType(text)
  {
    var p, q := StripDrops(text);
    var s := Strip(text);
    StripOnly("", s, "");
    assert "" + s + "" == s;
    hide Strip;
    hide Colon;
    hide BaseType;
  }

  lemma TagSplit(s: string, tag: string, e: string)
    requires Colon(s) < |s| && forall j | 0 <= j < |tag| :: tag[j] != ':'
    ensures s == tag + ":" + e <==> s[..Colon(s)] == tag && s[Colon(s) + 1..] == e
  {
    ColonSplit(s);
    if s == tag + ":" + e { ColonAt(tag, e); }
  }

  lemma TagExactly(s: string, t: Type)
    requires s == Strip(s) && !("LIST " <= s) && Colon(s) < |s|
    ensures ParseType(s) == Some(t) <==> Writes(s, t)
  {
    hide Strip;
    hide Colon;
    hide BaseType;
    match t
    case TId(e) =>
      TagSplit(s, "ID", e);
      assert "ID" + ":" + e == "ID:" + e;
    case TObj(e) =>
      TagSplit(s, "OBJ", e);
      assert "OBJ" + ":" + e == "OBJ:" + e;
    case _ => assert s[Colon(s)] == ':';
  }

  lemma TagColon(s: string, t: Type)
    requires (t.TId? || t.TObj?) && Writes(s, t)
    ensures Colon(s) < |s|
  {
    var tag := if t.TId? then "ID" else "OBJ";
    assert s == tag + ":" + t.entity;
    ColonAt(tag, t.entity);
  }

  lemma BaseExactly(s: string, t: Type)
    requires s == Strip(s) && !("LIST " <= s) && Colon(s) == |s|
    ensures ParseType(s) == Some(t) <==> Writes(s, t)
  {
    hide Strip;
    hide Colon;
    if (t.TId? || t.TObj?) && Writes(s, t) { TagColon(s, t); }
  }

  lemma NoListTag(s: string, t: Type)
    requires "LIST " <= s && Writes(s, t)
    ensures t.TList?
  {
    assert s[0] == "LIST "[0] == 'L' && |s| >= 5;
  }

  lemma {:induction false} CoreExactly(s: string, t: Type)
    requires s == Strip(s)
    ensures ParseType(s) == Some(t) <==> Writes(s, t)
    decreases |s|, 0
  {
    if "LIST " <= s {
      hide Strip;
      if t.TList? { TypeExactly(s[5..], t.elem); }
      if Writes(s, t) { NoListTag(s, t); }
      hide Reads;
      hide Colon;
      hide BaseType;
    } else if Colon(s) < |s| {
      hide ParseType;
      TagExactly(s, t);
    } else {
      hide ParseType;
      BaseExactly(s, t);
    }
  }

  /** The type parser accepts exactly the type syntax. */
  lemma {:induction false} TypeExactly(text: string, t: Type)
    ensures ParseType(text) == Some(t) <==> Reads(text, t)
    decreases |text|, 1
  {
    var p, q := StripDrops(text);
    StrippedParse(text);
    CoreExactly(Strip(text), t);
    hide ParseType;
    hide Writes;
    forall p, core, q | text == p + core + q && Spaces(p) && Spaces(q) && Bare(core) && Writes(core, t)
      ensures Writes(Strip(text), t)
    {
      StripOnly(p, core, q);
    }
  }
}
