/**
 * Template literals of the content route: fixed prose with `${…}` slots.
 *
 * A template is the sequence of its pieces; the prose pieces are opaque
 * constants and only the slots (which value goes where) carry meaning.
 */
module Template {
  import opened Text

  /** The values a template literal of the content route interpolates. */
  datatype Field = TopicField | SubjectField | SyllabusField | CountField | ConfigField | TypeField

  /** One piece of a template literal. */
  datatype Segment = Lit(text: string) | Slot(field: Field)

  /** The rendered value of each field for one request. */
  datatype Values = Values(topic: string, subject: string, syllabus: string, count: string, config: string, typeBlock: string)

  function Value(v: Values, f: Field): string {
    match f
    case TopicField => v.topic
    case SubjectField => v.subject
    case SyllabusField => v.syllabus
    case CountField => v.count
    case ConfigField => v.config
    case TypeField => v.typeBlock
  }

  /** The string a template literal evaluates to. */
  function Render(t: seq<Segment>, v: Values): string {
    if t == [] then []
    else
      (match t[0]
       case Lit(s) => s
       case Slot(f) => Value(v, f))
      + Render(t[1..], v)
  }

  /** Every slot's value appears verbatim in the rendered text. */
  lemma {:induction false} RenderContains(t: seq<Segment>, v: Values, f: Field)
    requires Slot(f) in t
    ensures Contains(Render(t, v), Value(v, f))
    decreases |t|
  {
    var head := match t[0] case Lit(s) => s case Slot(g) => Value(v, g);
    assert Render(t, v) == head + Render(t[1..], v);
    if t[0] == Slot(f) {
      ContainsInfix([], Value(v, f), Render(t[1..], v));
      assert [] + Value(v, f) + Render(t[1..], v) == Render(t, v);
    } else {
      RenderContains(t[1..], v, f);
      ContainsPrepend(head, Render(t[1..], v), Value(v, f));
    }
  }

  /** A template depends only on the fields it has slots for. */
  lemma {:induction false} RenderIgnores(t: seq<Segment>, v: Values, w: Values)
    requires forall f :: Slot(f) in t ==> Value(v, f) == Value(w, f)
    ensures Render(t, v) == Render(t, w)
    decreases |t|
  {
    if t != [] {
      assert forall f :: Slot(f) in t[1..] ==> Slot(f) in t;
      RenderIgnores(t[1..], v, w);
    }
  }
}
