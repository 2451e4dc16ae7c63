/**
 * `createTelegramLink`: turns key/value pairs into a message text and a `t.me` deep link
 * whose `text` parameter carries that message, percent-encoded.
 */
module Telegram {
  import opened Wrappers
  import opened Seqs
  import opened JsText
  import opened UriComponent

  /** One entry of the record handed to `createTelegramLink`; `None` is an `undefined` value. */
  datatype Field = Field(key: string, value: Option<string>)

  /** What a form offers for sending: the Telegram link, or a disabled button. */
  datatype SendControl = SendLink(href: string) | SendDisabled

  /** The fixed part of every link. */
  const LinkPrefix: string := "https://t.me/shitsu_zakaz?text="

  /** An entry survives the filter unless its value is `undefined` or exactly `""`. */
  predicate Kept(f: Field) {
    f.value.Some? && f.value.value != ""
  }

  predicate NotAngle(c: char) {
    c != '<' && c != '>'
  }

  /** `String(value).trim().replace(/[<>]/g, "")` */
  function Clean(value: string): (r: string)
    ensures forall i :: 0 <= i < |r| ==> NotAngle(r[i])
    ensures |r| <= |Trim(value)|
  {
    Filter(Trim(value), NotAngle)
  }

  /** A value without angle brackets is only trimmed. */
  lemma CleanWithoutAngles(value: string)
    requires forall i :: 0 <= i < |value| ==> NotAngle(value[i])
    ensures Clean(value) == Trim(value)
  {
    var t := Trim(value);
    var i := |value| - |TrimStart(value)|;
    assert t == value[i..i + |t|] by {
      TrimIsSlice(value);
    }
    assert Filter(t, NotAngle) == t by {
      FilterKeepsSlice(value, i, i + |t|, NotAngle);
    }
  }

  /** The line an entry renders to: the bare cleaned value for an empty key, `key: value` otherwise. */
  function Line(key: string, value: string): string {
    if key == "" then Clean(value) else key + ": " + Clean(value)
  }

  function RenderField(f: Field): string
    requires Kept(f)
  {
    Line(f.key, f.value.value)
  }

  /** The lines of the message, one per kept entry, in entry order. */
  function Lines(fields: seq<Field>): (r: seq<string>)
    ensures |r| <= |fields|
  {
    var kept := Filter(fields, Kept);
    Map(kept, (f: Field) => if Kept(f) then RenderField(f) else "")
  }

  /** The message text: the lines joined by single newlines. */
  function Text(fields: seq<Field>): string {
    Join(Lines(fields), "\n")
  }

  /** `createTelegramLink(data)` */
  function CreateTelegramLink(fields: seq<Field>): (link: string)
    ensures StartsWith(link, LinkPrefix)
    ensures Decode(link[|LinkPrefix|..]) == Some(Text(fields))
    ensures PercentForm(link[|LinkPrefix|..])
  {
    var link := LinkPrefix + Encode(Text(fields));
    assert link[|LinkPrefix|..] == Encode(Text(fields));
    DecodeEncode(Text(fields));
    EncodeIsPercentForm(Text(fields));
    link
  }

  /** The encoded message holds no raw space, newline, `&`, `#`, `=` or `?`, so it stays one query value. */
  lemma LinkQueryIsOneValue(fields: seq<Field>)
    ensures var q := CreateTelegramLink(fields)[|LinkPrefix|..];
      forall k :: 0 <= k < |q| ==> q[k] !in {' ', '\n', '&', '#', '=', '?'}
  {
    var link := CreateTelegramLink(fields);
    assert link[|LinkPrefix|..] == Encode(Text(fields));
    EncodeHasNoDelimiters(Text(fields));
  }

  /** A value made only of white space is kept, and renders as nothing after its key. */
  lemma BlankValueKept(key: string, value: string)
    requires value != "" && AllSpace(value)
    ensures Kept(Field(key, Some(value)))
    ensures Line(key, value) == if key == "" then "" else key + ": "
  {
    TrimEmptyIffBlank(value);
  }

  /** An entry whose value is `undefined` or `""` leaves the message as it was. */
  lemma DroppedFieldAddsNothing(fields: seq<Field>, f: Field)
    requires !Kept(f)
    ensures Text(fields + [f]) == Text(fields)
  {
    FieldsSnoc(fields, f);
    assert Lines(fields + [f]) == Lines(fields);
  }

  /** When every entry is kept, there is one line per entry, in entry order. */
  lemma LinesAllKept(fields: seq<Field>)
    requires forall i :: 0 <= i < |fields| ==> Kept(fields[i])
    ensures |Lines(fields)| == |fields|
    ensures forall i :: 0 <= i < |fields| ==> Lines(fields)[i] == RenderField(fields[i])
  {
    FilterKeepsAll(fields, Kept);
  }

  /** A single kept entry is the whole message. */
  lemma TextOfOne(f: Field)
    requires Kept(f)
    ensures Text([f]) == RenderField(f)
  {
    LinesAllKept([f]);
    assert Lines([f]) == [RenderField(f)];
  }

  /** Four kept entries give four lines joined by newlines. */
  lemma TextOfFour(f0: Field, f1: Field, f2: Field, f3: Field)
    requires Kept(f0) && Kept(f1) && Kept(f2) && Kept(f3)
    ensures Text([f0, f1, f2, f3])
      == RenderField(f0) + "\n" + RenderField(f1) + "\n" + RenderField(f2) + "\n" + RenderField(f3)
  {
    LinesOfFour(f0, f1, f2, f3);
    JoinFour(RenderField(f0), RenderField(f1), RenderField(f2), RenderField(f3), "\n");
  }

  lemma LinesOfFour(f0: Field, f1: Field, f2: Field, f3: Field)
    requires Kept(f0) && Kept(f1) && Kept(f2) && Kept(f3)
    ensures Lines([f0, f1, f2, f3]) == [RenderField(f0), RenderField(f1), RenderField(f2), RenderField(f3)]
  {
    LinesAllKept([f0, f1, f2, f3]);
  }

  /** Appending an entry appends its line, so lines follow entry order. */
  lemma FieldsSnoc(fields: seq<Field>, f: Field)
    ensures Lines(fields + [f]) == Lines(fields) + (if Kept(f) then [RenderField(f)] else [])
  {
    var render := (f: Field) => if Kept(f) then RenderField(f) else "";
    FilterConcat(fields, [f], Kept);
    assert [f][1..] == [];
    MapConcat(Filter(fields, Kept), Filter([f], Kept), render);
  }

  /** A kept entry appended after others adds one newline and its line to the message. */
  lemma TextSnoc(fields: seq<Field>, f: Field)
    requires Kept(f)
    ensures Text(fields + [f]) == if Lines(fields) == [] then RenderField(f) else Text(fields) + "\n" + RenderField(f)
  {
    FieldsSnoc(fields, f);
    JoinSnoc(Lines(fields), RenderField(f), "\n");
  }

  /** No line carries an angle bracket when its key carries none. */
  lemma LineNoAngles(key: string, value: string)
    requires '<' !in key && '>' !in key
    ensures '<' !in Line(key, value) && '>' !in Line(key, value)
  {
    var c := Clean(value);
    NoAngleMembers(c);
    LabelledAvoids(key, c, '<');
    LabelledAvoids(key, c, '>');
  }

  /** A character in neither the key, nor the value, nor the ": " separator is not in the line. */
  lemma LabelledAvoids(key: string, c: string, x: char)
    requires x !in key && x !in c && x != ':' && x != ' '
    ensures x !in (if key == "" then c else key + ": " + c)
  {
  }

  lemma NoAngleMembers(c: string)
    requires forall i :: 0 <= i < |c| ==> NotAngle(c[i])
    ensures '<' !in c && '>' !in c
  {
  }

  /** The message carries no angle bracket when no key does. */
  lemma TextNoAngles(fields: seq<Field>)
    requires forall i :: 0 <= i < |fields| ==> '<' !in fields[i].key && '>' !in fields[i].key
    ensures '<' !in Text(fields) && '>' !in Text(fields)
  {
    var lines := Lines(fields);
    var kept := Filter(fields, Kept);
    FilterSubset(fields, Kept);
    forall i | 0 <= i < |lines| ensures '<' !in lines[i] && '>' !in lines[i] {
      var k :| 0 <= k < |fields| && fields[k] == kept[i];
      LineNoAngles(kept[i].key, kept[i].value.value);
    }
    JoinAvoids(lines, "\n", '<');
    JoinAvoids(lines, "\n", '>');
  }
}
