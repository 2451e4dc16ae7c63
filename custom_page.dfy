/**
 * The custom-order page: a one-field form whose text becomes a Telegram message, and the
 * confirmation that replaces the form once it is submitted.
 */
module CustomPage {
  import opened Wrappers
  import opened Seqs
  import opened JsText
  import opened UriComponent
  import opened Telegram

  /** The heading every custom-order message starts with. */
  const CustomHeading: string := "ИНДИВИДУАЛЬНЫЙ ЗАКАЗ\n\n"

  /** The link for a concept: a single entry with an empty key. */
  function CustomLink(concept: string): (link: string)
    ensures StartsWith(link, LinkPrefix)
    ensures !AllSpace(concept) ==>
      Decode(link[|LinkPrefix|..]) == Some(CustomHeading + Filter(TrimEnd(concept), NotAngle))
  {
    var fields := [Field("", Some(CustomHeading + concept))];
    if !AllSpace(concept) then
      CustomText(concept);
      CreateTelegramLink(fields)
    else
      CreateTelegramLink(fields)
  }

  /** A non-blank concept yields the heading, then the concept with its trailing white space and its angle brackets removed; no key prefix is added. */
  lemma CustomText(concept: string)
    requires !AllSpace(concept)
    ensures Text([Field("", Some(CustomHeading + concept))]) == CustomHeading + Filter(TrimEnd(concept), NotAngle)
  {
    var v := CustomHeading + concept;
    TextOfOne(Field("", Some(v)));
    CleanAfterHeading(concept);
  }

  lemma CleanAfterHeading(concept: string)
    requires !AllSpace(concept)
    ensures Clean(CustomHeading + concept) == CustomHeading + Filter(TrimEnd(concept), NotAngle)
  {
    var v := CustomHeading + concept;
    HeadingStartsTrimmed(concept);
    TrimEndConcat(CustomHeading, concept);
    assert Trim(v) == CustomHeading + TrimEnd(concept);
    FilterConcat(CustomHeading, TrimEnd(concept), NotAngle);
    HeadingHasNoAngles();
  }

  lemma HeadingStartsTrimmed(concept: string)
    ensures TrimStart(CustomHeading + concept) == CustomHeading + concept
  {
    var v := CustomHeading + concept;
    assert v[0] == 'И';
  }

  lemma HeadingHasNoAngles()
    ensures Filter(CustomHeading, NotAngle) == CustomHeading
  {
    FilterKeepsAll(CustomHeading, NotAngle);
  }

  /** The send control under the form: a link only when the concept is not blank. */
  function CustomSend(concept: string): (c: SendControl)
    ensures c.SendLink? <==> !AllSpace(concept)
    ensures c.SendLink? ==> c.href == CustomLink(concept)
  {
    TrimEmptyIffBlank(concept);
    if Trim(concept) != "" then SendLink(CustomLink(concept)) else SendDisabled
  }

  /** What the lower part of the page shows. */
  datatype CustomView = Confirmation | Form(concept: string, send: SendControl)

  /** Once submitted, the confirmation replaces the form. */
  function PageView(submitted: bool, concept: string): (v: CustomView)
    ensures v.Confirmation? <==> submitted
    ensures v.Form? ==> v.concept == concept && v.send == CustomSend(concept)
  {
    if submitted then Confirmation else Form(concept, CustomSend(concept))
  }

  /** The page state: the submitted flag and the form data. */
  class CustomOrderForm {
    var submitted: bool
    var concept: string

    constructor ()
      ensures !submitted && concept == ""
    {
      submitted := false;
      concept := "";
    }

    /** `handleSubmit`: only marks the form as submitted; the `required` text area is never submitted empty. */
    method HandleSubmit()
      requires concept != ""
      modifies this
      ensures submitted && concept == old(concept)
    {
      submitted := true;
    }

    /** Typing in the text area replaces only the concept. */
    method SetConcept(value: string)
      modifies this
      ensures concept == value && submitted == old(submitted)
    {
      concept := value;
    }

    function View(): CustomView
      reads this
    {
      PageView(submitted, concept)
    }
  }
}
