/** src/utils/paths.ts: the canonical URL of an instrument's display page
    and edit page, /instruments/<id>/<encoded name>/[edit/]. */
module Paths {
  import opened Text
  import opened UriEncoding
  import opened Options
  import Types

  /** getInstrumentPath(instrument, isEditPage) */
  function GetInstrumentPath(instrument: Types.Instrument, isEditPage: bool): (p: string)
    ensures StartsWith(p, "/instruments/") && EndsWith(p, "/")
  {
    var encodedName := EncodeUriComponent(instrument.name);
    if isEditPage
    then "/instruments/" + IntToString(instrument.id) + "/" + encodedName + "/edit/"
    else "/instruments/" + IntToString(instrument.id) + "/" + encodedName + "/"
  }

  /** getInstrumentPath(instrument), with the default `isEditPage = false` */
  function GetDisplayPath(instrument: Types.Instrument): string {
    GetInstrumentPath(instrument, false)
  }

  /** What a canonical path says: the id, the name and whether it is the edit page */
  datatype PathParts = PathParts(id: int, name: string, isEditPage: bool)

  /** Number-like reading of a `${id}` segment: optional '-' then digits */
  function ParseIntString(s: string): Option<int> {
    if IsDigitString(s) then Some(DigitsValue(s))
    else if |s| > 1 && s[0] == '-' && IsDigitString(s[1..]) then Some(-(DigitsValue(s[1..]) as int))
    else None
  }

  function ParseParts(idText: string, encodedName: string, isEditPage: bool): Option<PathParts> {
    match (ParseIntString(idText), PercentDecode(encodedName))
    case (Some(id), Some(name)) => Some(PathParts(id, name, isEditPage))
    case _ => None
  }

  /** Reads a canonical path back into its parts */
  function ParseInstrumentPath(p: string): Option<PathParts> {
    var segments := Split(p);
    if |segments| == 5 && segments[0] == "" && segments[1] == "instruments" && segments[4] == ""
    then ParseParts(segments[2], segments[3], false)
    else if |segments| == 6 && segments[0] == "" && segments[1] == "instruments"
            && segments[4] == "edit" && segments[5] == ""
    then ParseParts(segments[2], segments[3], true)
    else None
  }

  lemma ParseIntToString(n: int)
    ensures ParseIntString(IntToString(n)) == Some(n)
    ensures '/' !in IntToString(n)
  {
    if n < 0 {
      DigitsValueOfNatToString(-n);
      var s := IntToString(n);
      assert s[1..] == NatToString(-n);
      assert forall i :: 0 <= i < |s| ==> s[i] == '-' || IsDigit(s[i]);
    } else {
      DigitsValueOfNatToString(n);
    }
  }

  /** Split of w + "/" + rest for a slash-free word w */
  lemma SplitWordThen(w: string, rest: string)
    requires '/' !in w
    ensures Split(w + "/" + rest) == [w] + Split(rest)
  {
    SplitNoSlash(w);
    SplitAtSlash(w, rest);
  }

  /** Split of "/instruments/" + rest, the prefix both page paths share */
  lemma SplitInstrumentsPrefix(rest: string)
    ensures Split("/instruments/" + rest) == ["", "instruments"] + Split(rest)
  {
    var w := "instruments";
    var t := w + "/" + rest;
    assert Split(t) == [w] + Split(rest) by {
      assert '/' !in w;
      SplitWordThen(w, rest);
    }
    assert Split("" + "/" + t) == [""] + Split(t) by {
      SplitWordThen("", t);
    }
    assert "/instruments/" + rest == "" + "/" + t;
  }

  /** Split of d + "/" + e + "/" + rest for slash-free d and e */
  lemma SplitTwoWords(d: string, e: string, rest: string)
    requires '/' !in d && '/' !in e
    ensures Split(d + "/" + e + "/" + rest) == [d, e] + Split(rest)
  {
    var t := e + "/" + rest;
    SplitWordThen(e, rest);
    SplitWordThen(d, t);
    assert d + "/" + e + "/" + rest == d + "/" + t;
  }

  lemma SplitDisplayShape(d: string, e: string)
    requires '/' !in d && '/' !in e
    ensures Split("/instruments/" + d + "/" + e + "/") == ["", "instruments", d, e, ""]
  {
    var tail := d + "/" + e + "/" + "";
    SplitTwoWords(d, e, "");
    assert Split("") == [""];
    SplitInstrumentsPrefix(tail);
    assert "/instruments/" + d + "/" + e + "/" == "/instruments/" + tail;
  }

  lemma SplitEditShape(d: string, e: string)
    requires '/' !in d && '/' !in e
    ensures Split("/instruments/" + d + "/" + e + "/edit/") == ["", "instruments", d, e, "edit", ""]
  {
    var tail := d + "/" + e + "/edit/";
    assert Split(tail) == [d, e, "edit", ""] by {
      var edit := "edit/";
      assert Split(edit) == ["edit", ""] by {
        assert '/' !in "edit";
        SplitWordThen("edit", "");
        assert edit == "edit" + "/" + "";
      }
      SplitTwoWords(d, e, edit);
      assert "/edit/" == "/" + edit;
      assert tail == d + "/" + e + "/" + edit;
    }
    SplitInstrumentsPrefix(tail);
    ConcatFive("/instruments/", d, "/", e, "/edit/");
  }

  /** Regrouping a concatenation of five strings */
  lemma ConcatFive(a: string, b: string, c: string, d: string, e: string)
    ensures a + b + c + d + e == a + (b + c + d + e)
  {
  }

  lemma SplitInstrumentPath(instrument: Types.Instrument, isEditPage: bool)
    ensures var d, e := IntToString(instrument.id), EncodeUriComponent(instrument.name);
      Split(GetInstrumentPath(instrument, isEditPage)) ==
        if isEditPage then ["", "instruments", d, e, "edit", ""] else ["", "instruments", d, e, ""]
  {
    ParseIntToString(instrument.id);
    EncodeHasNoSlash(instrument.name);
    if isEditPage {
      SplitEditShape(IntToString(instrument.id), EncodeUriComponent(instrument.name));
    } else {
      SplitDisplayShape(IntToString(instrument.id), EncodeUriComponent(instrument.name));
    }
  }

  /** The path determines the instrument's id and name and the page kind */
  lemma {:induction false} ParseGetInstrumentPath(instrument: Types.Instrument, isEditPage: bool)
    ensures ParseInstrumentPath(GetInstrumentPath(instrument, isEditPage))
      == Some(PathParts(instrument.id, instrument.name, isEditPage))
  {
    SplitInstrumentPath(instrument, isEditPage);
    ParseIntToString(instrument.id);
    DecodeEncode(instrument.name);
  }

  /** Instruments with different ids or names have different paths */
  lemma GetInstrumentPathInjective(a: Types.Instrument, b: Types.Instrument, ea: bool, eb: bool)
    requires GetInstrumentPath(a, ea) == GetInstrumentPath(b, eb)
    ensures a.id == b.id && a.name == b.name && ea == eb
  {
    ParseGetInstrumentPath(a, ea);
    ParseGetInstrumentPath(b, eb);
  }

  /** The edit path is the display path followed by "edit/" */
  lemma EditPathExtendsDisplayPath(instrument: Types.Instrument)
    ensures GetInstrumentPath(instrument, true) == GetInstrumentPath(instrument, false) + "edit/"
  {
  }

  /** /instruments/4/Double%20Bass/ for instrument 4, "Double Bass" */
  lemma DoubleBassPath(instrument: Types.Instrument)
    requires instrument.id == 4 && instrument.name == "Double Bass"
    ensures GetInstrumentPath(instrument, false) == "/instruments/4/Double%20Bass/"
  {
    var idText, encoded := IntToString(instrument.id), EncodeUriComponent(instrument.name);
    assert idText == "4" by {
      assert DigitChar(4) == '4';
    }
    assert encoded == "Double%20Bass" by {
      EncodeTwoWords("Double", "Bass");
      assert "Double" + " " + "Bass" == "Double Bass";
      assert "Double" + "%20" + "Bass" == "Double%20Bass";
    }
    assert GetInstrumentPath(instrument, false) == "/instruments/" + idText + "/" + encoded + "/";
    assert "/instruments/" + "4" + "/" + "Double%20Bass" + "/" == "/instruments/4/Double%20Bass/";
  }

  /** "Foo Bar" with id 7: /instruments/7/Foo%20Bar/ and its edit page */
  lemma FooBarPaths(instrument: Types.Instrument)
    requires instrument.id == 7 && instrument.name == "Foo Bar"
    ensures GetInstrumentPath(instrument, false) == "/instruments/7/Foo%20Bar/"
    ensures GetInstrumentPath(instrument, true) == "/instruments/7/Foo%20Bar/edit/"
  {
    var idText, encoded := IntToString(instrument.id), EncodeUriComponent(instrument.name);
    assert idText == "7" by {
      assert DigitChar(7) == '7';
    }
    assert encoded == "Foo%20Bar" by {
      EncodeFooBar();
    }
    assert GetInstrumentPath(instrument, false) == "/instruments/" + idText + "/" + encoded + "/";
    assert GetInstrumentPath(instrument, true) == "/instruments/" + idText + "/" + encoded + "/edit/";
    assert "/instruments/" + "7" + "/" + "Foo%20Bar" + "/" == "/instruments/7/Foo%20Bar/";
    assert "/instruments/" + "7" + "/" + "Foo%20Bar" + "/edit/" == "/instruments/7/Foo%20Bar/edit/";
  }
}
