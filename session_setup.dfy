/** The session-setup form: three text fields, a validity test that trims each
    field, and a submit handler that hands the untrimmed fields to the page. */
module SessionSetup {
  import opened Domain

  /** The characters `String.prototype.trim` removes: ECMAScript white space
      (tab, vertical tab, form feed, space, no-break space, byte order mark and
      the space separators) and line terminators. */
  predicate IsWhitespace(c: char)
  {
    || c == '\t' || c == '\n' || c == '\U{000B}' || c == '\U{000C}' || c == '\r' || c == ' '
    || c == '\U{00A0}' || c == '\U{1680}' || ('\U{2000}' <= c <= '\U{200A}')
    || c == '\U{2028}' || c == '\U{2029}' || c == '\U{202F}' || c == '\U{205F}'
    || c == '\U{3000}' || c == '\U{FEFF}'
  }

  /** Every character of `s` is white space (the empty string included). */
  ghost predicate Blank(s: string)
  {
    forall i :: 0 <= i < |s| ==> IsWhitespace(s[i])
  }

  /** Drops the leading white space: the result is a suffix of `s`, what was
      dropped is white space, and the result does not start with white space. */
  function TrimStart(s: string): (r: string)
    ensures |r| <= |s| && r == s[|s| - |r|..]
    ensures forall i :: 0 <= i < |s| - |r| ==> IsWhitespace(s[i])
    ensures r != [] ==> !IsWhitespace(r[0])
  {
    if s != [] && IsWhitespace(s[0]) then TrimStart(s[1..]) else s
  }

  /** Drops the trailing white space: the result is a prefix of `s`, what was
      dropped is white space, and the result does not end with white space. */
  function TrimEnd(s: string): (r: string)
    ensures |r| <= |s| && r == s[..|r|]
    ensures forall i :: |r| <= i < |s| ==> IsWhitespace(s[i])
    ensures r != [] ==> !IsWhitespace(r[|r| - 1])
  {
    if s != [] && IsWhitespace(s[|s| - 1]) then TrimEnd(s[..|s| - 1]) else s
  }

  /** `s.trim()`: a slice of `s` that neither starts nor ends with white
      space. */
  function Trim(s: string): (r: string)
    ensures |r| <= |s|
    ensures r != [] ==> !IsWhitespace(r[0]) && !IsWhitespace(r[|r| - 1])
  {
    TrimEnd(TrimStart(s))
  }

  /** A string trims to "" exactly when it is blank. */
  lemma TrimEmptyIffBlank(s: string)
    ensures Trim(s) == "" <==> Blank(s)
  {
    var t := TrimStart(s);
    if t == [] {
      assert Blank(s);
    } else {
      assert !IsWhitespace(s[|s| - |t|]);
    }
  }

  /** `isFormValid`: all three fields are non-empty after trimming. */
  predicate IsFormValid(d: SessionData)
  {
    Trim(d.name) != "" && Trim(d.description) != "" && Trim(d.objective) != ""
  }

  /** The form is valid exactly when every field holds a character that is not
      white space. */
  lemma FormValidIffNoBlankField(d: SessionData)
    ensures IsFormValid(d) <==> !Blank(d.name) && !Blank(d.description) && !Blank(d.objective)
  {
    TrimEmptyIffBlank(d.name);
    TrimEmptyIffBlank(d.description);
    TrimEmptyIffBlank(d.objective);
  }

  /** A field of white space only, such as " " or "\n\t", makes the form
      invalid; so do the initial empty fields. */
  lemma BlankFieldInvalidatesForm(d: SessionData)
    requires Blank(d.name) || Blank(d.description) || Blank(d.objective)
    ensures !IsFormValid(d)
  {
    FormValidIffNoBlankField(d);
  }

  datatype FormField = Name | Description | Objective

  class Form {
    var sessionData: SessionData
    /** The calls of `onSessionComplete`, in order. */
    var completed: seq<SessionData>

    predicate IsValid()
      reads this
    {
      IsFormValid(sessionData)
    }

    /** All fields start empty, so the form starts invalid. */
    constructor ()
      ensures sessionData == SessionData("", "", "") && completed == []
      ensures !IsValid()
    {
      assert Trim("") == "";
      sessionData := SessionData("", "", "");
      completed := [];
    }

    /** `handleInputChange(field, value)`: that field becomes `value`, the other
        two are unchanged; nothing is submitted. */
    method HandleInputChange(field: FormField, value: string)
      modifies this`sessionData
      ensures sessionData.name == (if field == Name then value else old(sessionData.name))
      ensures sessionData.description == (if field == Description then value else old(sessionData.description))
      ensures sessionData.objective == (if field == Objective then value else old(sessionData.objective))
    {
      match field
      case Name => sessionData := sessionData.(name := value);
      case Description => sessionData := sessionData.(description := value);
      case Objective => sessionData := sessionData.(objective := value);
    }

    /** `handleSubmit`: calls `onSessionComplete` with the untrimmed fields
        exactly when the form is valid, and makes no call otherwise. The
        fields are unchanged. */
    method HandleSubmit()
      modifies this`completed
      ensures completed == old(completed) + (if IsValid() then [sessionData] else [])
      ensures IsValid() <==> (!Blank(sessionData.name) && !Blank(sessionData.description) && !Blank(sessionData.objective))
    {
      FormValidIffNoBlankField(sessionData);
      if IsFormValid(sessionData) {
        completed := completed + [sessionData];
      }
    }
  }
}
