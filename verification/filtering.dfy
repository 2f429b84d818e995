/**
 * The SCIM filter translator (section 3.4.2.2 of RFC 7644 on the SCIM side,
 * an OData `$filter` fragment on the Graph side). A filter is read with one
 * regular expression that is anchored at the start only, its attribute and
 * operator are looked up in two tables, and its value is typed by a heuristic.
 */
module Filtering {
  import opened Json
  import opened PyText

  /** `SCIMFilter.operators`: SCIM filter operator to Graph operator. */
  const Operators: map<string, string> := map[
    "eq" := "eq", "ne" := "ne", "co" := "contains", "sw" := "startswith", "ew" := "endswith",
    "pr" := "ne null", "gt" := "gt", "ge" := "ge", "lt" := "lt", "le" := "le"]

  /**
   * `SCIMFilter.attribute_mapping`: SCIM attribute to Graph property. The
   * source writes the displayName entry twice with the same target.
   */
  const AttributeMapping: map<string, string> := map[
    "userName" := "userPrincipalName", "name.familyName" := "surname",
    "name.givenName" := "givenName", "displayName" := "displayName",
    "emails.value" := "mail", "active" := "accountEnabled", "id" := "id",
    "externalId" := "userPrincipalName"]

  /** The three groups of the filter regex: attribute, operator and value. */
  datatype Clause = Clause(attribute: string, operator: string, value: string)

  /** The character classes of the regex `(\S+)\s+(\S+)\s+"?([^"]*)"?`. */
  datatype CharClass = NotSpace | Space | NotQuote

  predicate InClass(c: char, k: CharClass) {
    match k
    case NotSpace => !IsSpace(c)
    case Space => IsSpace(c)
    case NotQuote => c != '"'
  }

  /** The length of the greedy run of class `k` at the start of `s`. */
  function Span(s: string, k: CharClass): (n: nat)
    ensures n <= |s|
  {
    if s != [] && InClass(s[0], k) then 1 + Span(s[1..], k) else 0
  }

  /**
   * `parse_simple_filter`: `re.match` of `(\S+)\s+(\S+)\s+"?([^"]*)"?`. Every
   * quantifier is greedy and no backtracking can rescue a failed attempt, so
   * each group is the longest run of its class in what the previous groups
   * left. The match is anchored at the start only: text after the value is
   * ignored.
   */
  function ParseSimpleFilter(s: string): (r: Option<Clause>)
    ensures r.Some? ==> Token(r.value.attribute) && Token(r.value.operator) && '"' !in r.value.value
  {
    var attributeLength := Span(s, NotSpace);
    var afterAttribute := s[attributeLength..];
    var blank1 := Span(afterAttribute, Space);
    var atOperator := afterAttribute[blank1..];
    var operatorLength := Span(atOperator, NotSpace);
    var afterOperator := atOperator[operatorLength..];
    var blank2 := Span(afterOperator, Space);
    var atValue := afterOperator[blank2..];
    if attributeLength == 0 || blank1 == 0 || operatorLength == 0 || blank2 == 0 then
      None
    else
      var value := if atValue != [] && atValue[0] == '"' then atValue[1..] else atValue;
      SpanIsLongestRun(s, NotSpace);
      SpanIsLongestRun(atOperator, NotSpace);
      SpanIsLongestRun(value, NotQuote);
      Some(Clause(s[..attributeLength], atOperator[..operatorLength], value[..Span(value, NotQuote)]))
  }

  /** `attribute_mapping.get(attribute, attribute)`: unmapped names pass through. */
  function GraphAttribute(attribute: string): (property: string)
    ensures Token(attribute) ==> Token(property)
  {
    if attribute in AttributeMapping then
      MappedAttributeIsWord(attribute);
      AttributeMapping[attribute]
    else attribute
  }

  lemma MappedAttributeIsWord(attribute: string)
    requires attribute in AttributeMapping
    ensures Token(AttributeMapping[attribute])
  {
    var property := AttributeMapping[attribute];
    if property == "userPrincipalName" {
      VisibleAsciiHasNoSpace("userPrincipalName");
    } else if property == "surname" {
      VisibleAsciiHasNoSpace("surname");
    } else if property == "givenName" {
      VisibleAsciiHasNoSpace("givenName");
    } else if property == "displayName" {
      VisibleAsciiHasNoSpace("displayName");
    } else if property == "mail" {
      VisibleAsciiHasNoSpace("mail");
    } else if property == "accountEnabled" {
      VisibleAsciiHasNoSpace("accountEnabled");
    } else {
      assert property == "id";
      VisibleAsciiHasNoSpace("id");
    }
  }

  /**
   * The value-typing heuristic: `true`/`false` in any case become lower-case
   * and unquoted, all-digit values stay unquoted, anything else is wrapped in
   * single quotes without escaping.
   */
  function RenderValue(value: string): (r: string)
    ensures r != [] && (r[0] == '\'' <==> TypedValue(value).Str?)
  {
    var lower := Lower(value);
    if lower == "true" || lower == "false" then lower
    else if IsDigits(value) then value
    else "'" + value + "'"
  }

  /**
   * `convert_to_graph_filter`: a fragment comes out exactly when the filter
   * parses and its operator is in the table; otherwise the result is "".
   */
  function ConvertToGraphFilter(scimFilter: Option<string>): (r: string)
    ensures r != "" <==> && scimFilter.Some?
                         && ParseSimpleFilter(scimFilter.value).Some?
                         && ParseSimpleFilter(scimFilter.value).value.operator in Operators
  {
    if scimFilter.None? || scimFilter.value == "" then ""
    else
      match ParseSimpleFilter(scimFilter.value)
      case None => ""
      case Some(clause) =>
        var graphAttribute := GraphAttribute(clause.attribute);
        if clause.operator !in Operators then ""
        else if clause.operator == "pr" then graphAttribute + " ne null"
        else graphAttribute + " " + Operators[clause.operator] + " " + RenderValue(clause.value)
  }

  // ---------------------------------------------------------------------------
  // The filter grammar, stated by composition

  /** An attribute or operator token: one or more non-whitespace characters. */
  predicate Token(t: string) {
    t != [] && NoSpace(t)
  }

  /** A separator: one or more whitespace characters. */
  predicate Blank(w: string) {
    w != [] && AllSpace(w)
  }

  function Quote(quoted: bool): string {
    if quoted then "\"" else ""
  }

  /**
   * The pieces of a filter that the regex reads as attribute `attribute`,
   * operator `operator` and value `value`: the value contains no double quote
   * and ends where `rest` starts (at a quote or at the end); an unquoted value
   * does not start with whitespace, and an empty one is followed by nothing.
   */
  predicate WellSplit(attribute: string, ws1: string, operator: string, ws2: string,
                      quoted: bool, value: string, rest: string) {
    && Token(attribute) && Blank(ws1) && Token(operator) && Blank(ws2)
    && '"' !in value
    && (rest == [] || rest[0] == '"')
    && (!quoted ==> (value == [] ==> rest == []) && (value != [] ==> !IsSpace(value[0])))
  }

  /** The filter text the pieces make, in order. */
  function Compose(attribute: string, ws1: string, operator: string, ws2: string,
                   quoted: bool, value: string, rest: string): string {
    attribute + (ws1 + (operator + (ws2 + (Quote(quoted) + (value + rest)))))
  }

  predicate AllInClass(t: string, k: CharClass) {
    forall j :: 0 <= j < |t| ==> InClass(t[j], k)
  }

  /** `Span` is the longest run: every character in it is in the class, and the one after it is not. */
  lemma {:induction false} SpanIsLongestRun(s: string, k: CharClass)
    ensures AllInClass(s[..Span(s, k)], k)
    ensures Span(s, k) < |s| ==> !InClass(s[Span(s, k)], k)
  {
    if s != [] && InClass(s[0], k) {
      SpanIsLongestRun(s[1..], k);
      assert s[..Span(s, k)] == [s[0]] + s[1..][..Span(s[1..], k)];
    }
  }

  /** A run over a piece of the class, stopped by what follows it. */
  lemma {:induction false} SpanOver(t: string, u: string, k: CharClass)
    requires AllInClass(t, k)
    requires u == [] || !InClass(u[0], k)
    ensures Span(t + u, k) == |t|
  {
    if t != [] {
      assert (t + u)[0] == t[0];
      assert (t + u)[1..] == t[1..] + u;
      SpanOver(t[1..], u, k);
    } else {
      assert t + u == u;
    }
  }

  /** Consuming a run over a piece leaves what follows the piece. */
  lemma SpanRest(t: string, u: string, k: CharClass)
    requires AllInClass(t, k)
    requires u == [] || !InClass(u[0], k)
    ensures Span(t + u, k) == |t| && (t + u)[..|t|] == t && (t + u)[|t|..] == u
  {
    SpanOver(t, u, k);
  }

  /** The value part of a well-split filter: it starts without whitespace, and the value is the run up to `rest`. */
  lemma ValueComposed(quoted: bool, value: string, rest: string)
    requires '"' !in value
    requires rest == [] || rest[0] == '"'
    requires !quoted ==> (value == [] ==> rest == []) && (value != [] ==> !IsSpace(value[0]))
    ensures var atValue := Quote(quoted) + (value + rest);
            var v := if atValue != [] && atValue[0] == '"' then atValue[1..] else atValue;
            && (atValue == [] || !IsSpace(atValue[0]))
            && Span(v, NotQuote) == |value| && v[..|value|] == value
  {
    var atValue := Quote(quoted) + (value + rest);
    if !quoted && value != [] {
      assert value[0] in value;
    }
    assert (if atValue != [] && atValue[0] == '"' then atValue[1..] else atValue) == value + rest;
    forall j | 0 <= j < |value| ensures InClass(value[j], NotQuote) {
      assert value[j] in value;
    }
    SpanRest(value, rest, NotQuote);
  }

  /** Every well-split filter is read back as the clause it was built from. */
  lemma ParseComposed(attribute: string, ws1: string, operator: string, ws2: string,
                      quoted: bool, value: string, rest: string)
    requires WellSplit(attribute, ws1, operator, ws2, quoted, value, rest)
    ensures ParseSimpleFilter(Compose(attribute, ws1, operator, ws2, quoted, value, rest))
            == Some(Clause(attribute, operator, value))
  {
    var atValue := Quote(quoted) + (value + rest);
    var afterOperator := ws2 + atValue;
    var atOperator := operator + afterOperator;
    var afterAttribute := ws1 + atOperator;
    assert forall t :: NoSpace(t) ==> AllInClass(t, NotSpace);
    ValueComposed(quoted, value, rest);
    SpanRest(attribute, afterAttribute, NotSpace);
    SpanRest(ws1, atOperator, Space);
    SpanRest(operator, afterOperator, NotSpace);
    SpanRest(ws2, atValue, Space);
  }

  /** Text with fewer than two tokens each followed by whitespace does not match. */
  lemma ParseFailsWithoutSecondBlank(attribute: string, ws1: string, operator: string)
    requires Token(attribute) && AllSpace(ws1) && NoSpace(operator)
    requires ws1 == [] ==> operator == []
    ensures ParseSimpleFilter(attribute + (ws1 + operator)) == None
  {
    var s := attribute + (ws1 + operator);
    if ws1 == [] {
      assert s == attribute + [];
      SpanRest(attribute, [], NotSpace);
    } else {
      SpanRest(attribute, ws1 + operator, NotSpace);
      SpanRest(ws1, operator + [], Space);
      SpanRest(operator, [], NotSpace);
      assert ws1 + operator == ws1 + (operator + []);
    }
  }

  /**
   * Every text the regex matches is a well-split filter: the groups are
   * separated by blanks, the value is optionally opened by a double quote,
   * and whatever follows the value starts with a double quote.
   */
  lemma ParseIsWellSplit(s: string)
    requires ParseSimpleFilter(s).Some?
    ensures var c := ParseSimpleFilter(s).value;
            exists ws1, ws2, quoted, rest ::
              && WellSplit(c.attribute, ws1, c.operator, ws2, quoted, c.value, rest)
              && s == Compose(c.attribute, ws1, c.operator, ws2, quoted, c.value, rest)
  {
    var c := ParseSimpleFilter(s).value;
    var attributeLength := Span(s, NotSpace);
    var afterAttribute := s[attributeLength..];
    var blank1 := Span(afterAttribute, Space);
    var atOperator := afterAttribute[blank1..];
    var operatorLength := Span(atOperator, NotSpace);
    var afterOperator := atOperator[operatorLength..];
    var blank2 := Span(afterOperator, Space);
    var atValue := afterOperator[blank2..];
    var quoted := atValue != [] && atValue[0] == '"';
    var v := if quoted then atValue[1..] else atValue;
    assert blank1 > 0 && blank2 > 0;
    assert c == Clause(s[..attributeLength], atOperator[..operatorLength], v[..Span(v, NotQuote)]);
    CutAt(s, attributeLength);
    CutAt(atOperator, operatorLength);
    PiecesWellSplit(s, c, afterAttribute, blank1, atOperator, afterOperator, blank2, atValue);
  }

  /** The pieces the regex cuts a text into, read as a well-split filter. */
  lemma PiecesWellSplit(s: string, c: Clause, afterAttribute: string, blank1: nat,
                        atOperator: string, afterOperator: string, blank2: nat, atValue: string)
    requires Token(c.attribute) && Token(c.operator)
    requires s == c.attribute + afterAttribute
    requires blank1 == Span(afterAttribute, Space) && blank1 > 0 && atOperator == afterAttribute[blank1..]
    requires atOperator == c.operator + afterOperator
    requires blank2 == Span(afterOperator, Space) && blank2 > 0 && atValue == afterOperator[blank2..]
    requires var v := if atValue != [] && atValue[0] == '"' then atValue[1..] else atValue;
             c.value == v[..Span(v, NotQuote)]
    ensures exists ws1, ws2, quoted, rest ::
              && WellSplit(c.attribute, ws1, c.operator, ws2, quoted, c.value, rest)
              && s == Compose(c.attribute, ws1, c.operator, ws2, quoted, c.value, rest)
  {
    var quoted := atValue != [] && atValue[0] == '"';
    var v := if quoted then atValue[1..] else atValue;
    var rest := v[Span(v, NotQuote)..];
    var ws1, ws2 := afterAttribute[..blank1], afterOperator[..blank2];
    assert Blank(ws1) && Blank(ws2) && (atValue == [] || !IsSpace(atValue[0])) by {
      SpanIsLongestRun(afterAttribute, Space);
      SpanIsLongestRun(afterOperator, Space);
    }
    ValueSplit(atValue);
    CutAt(afterAttribute, blank1);
    CutAt(afterOperator, blank2);
    ComposeOfPieces(s, c.attribute, afterAttribute, ws1, atOperator, c.operator, afterOperator, ws2, atValue, quoted, c.value, rest);
    WellSplitWitness(s, c, ws1, ws2, quoted, rest);
  }

  lemma WellSplitWitness(s: string, c: Clause, ws1: string, ws2: string, quoted: bool, rest: string)
    requires WellSplit(c.attribute, ws1, c.operator, ws2, quoted, c.value, rest)
    requires s == Compose(c.attribute, ws1, c.operator, ws2, quoted, c.value, rest)
    ensures exists ws1, ws2, quoted, rest ::
              && WellSplit(c.attribute, ws1, c.operator, ws2, quoted, c.value, rest)
              && s == Compose(c.attribute, ws1, c.operator, ws2, quoted, c.value, rest)
  {
  }

  /** What the regex reads after the second blank: an optional quote, the value, and the rest from the closing quote on. */
  lemma ValueSplit(atValue: string)
    requires atValue == [] || !IsSpace(atValue[0])
    ensures var quoted := atValue != [] && atValue[0] == '"';
            var v := if quoted then atValue[1..] else atValue;
            var value, rest := v[..Span(v, NotQuote)], v[Span(v, NotQuote)..];
            && '"' !in value && (rest == [] || rest[0] == '"')
            && (!quoted ==> (value == [] ==> rest == []) && (value != [] ==> !IsSpace(value[0])))
            && atValue == Quote(quoted) + (value + rest)
  {
    var quoted := atValue != [] && atValue[0] == '"';
    var v := if quoted then atValue[1..] else atValue;
    SpanIsLongestRun(v, NotQuote);
    assert v == v[..Span(v, NotQuote)] + v[Span(v, NotQuote)..];
  }

  lemma CutAt(t: string, n: nat)
    requires n <= |t|
    ensures t == t[..n] + t[n..]
  {
  }

  /** Pieces cut off one after another compose back to the text they were cut from. */
  lemma ComposeOfPieces(s: string, attribute: string, afterAttribute: string, ws1: string, atOperator: string,
                        operator: string, afterOperator: string, ws2: string, atValue: string,
                        quoted: bool, value: string, rest: string)
    requires s == attribute + afterAttribute && afterAttribute == ws1 + atOperator
    requires atOperator == operator + afterOperator && afterOperator == ws2 + atValue
    requires atValue == Quote(quoted) + (value + rest)
    ensures s == Compose(attribute, ws1, operator, ws2, quoted, value, rest)
  {
  }

  /** Text that is empty or starts with whitespace does not match. */
  lemma ParseFailsOnLeadingSpace(s: string)
    requires s == [] || IsSpace(s[0])
    ensures ParseSimpleFilter(s) == None
  {
  }

  // ---------------------------------------------------------------------------
  // What a translated filter says

  /** The output of the translator for a well-split filter, case by case. */
  lemma TranslateComposed(attribute: string, ws1: string, operator: string, ws2: string,
                          quoted: bool, value: string, rest: string)
    requires WellSplit(attribute, ws1, operator, ws2, quoted, value, rest)
    ensures var out := ConvertToGraphFilter(Some(Compose(attribute, ws1, operator, ws2, quoted, value, rest)));
            && (operator !in Operators ==> out == "")
            && (operator == "pr" ==> out == GraphAttribute(attribute) + " ne null")
            && (operator in Operators && operator != "pr" ==>
                 out == GraphAttribute(attribute) + " " + Operators[operator] + " " + RenderValue(value))
  {
    ParseComposed(attribute, ws1, operator, ws2, quoted, value, rest);
  }

  /** Only the first clause counts: whatever follows the closing quote of the value is ignored. */
  lemma TranslateIgnoresTail(attribute: string, ws1: string, operator: string, ws2: string,
                             value: string, tail: string)
    requires WellSplit(attribute, ws1, operator, ws2, true, value, "\"")
    ensures ConvertToGraphFilter(Some(Compose(attribute, ws1, operator, ws2, true, value, "\"" + tail)))
            == ConvertToGraphFilter(Some(Compose(attribute, ws1, operator, ws2, true, value, "\"")))
  {
    TranslateComposed(attribute, ws1, operator, ws2, true, value, "\"" + tail);
    TranslateComposed(attribute, ws1, operator, ws2, true, value, "\"");
  }

  /**
   * The translation of a well-split filter whose pieces are rendered as
   * `expected`; it lets the examples below state the pieces separately.
   */
  lemma TranslatesTo(s: string, attribute: string, operator: string, quoted: bool, value: string, rest: string,
                     expected: string)
    requires WellSplit(attribute, " ", operator, " ", quoted, value, rest)
    requires Compose(attribute, " ", operator, " ", quoted, value, rest) == s
    requires operator in Operators && operator != "pr"
    requires GraphAttribute(attribute) + " " + Operators[operator] + " " + RenderValue(value) == expected
    ensures ConvertToGraphFilter(Some(s)) == expected
  {
    TranslateComposed(attribute, " ", operator, " ", quoted, value, rest);
  }

  /** A value that is neither a boolean nor all digits is wrapped in single quotes. */
  lemma QuotedRendering(value: string)
    requires Lower(value) != "true" && Lower(value) != "false" && !IsDigits(value)
    ensures RenderValue(value) == "'" + value + "'"
  {
  }

  lemma EqOperatorExample()
    ensures "eq" in Operators && "eq" != "pr" && Operators["eq"] == "eq"
  {
  }

  lemma AttributeExamples()
    ensures GraphAttribute("userName") == "userPrincipalName"
    ensures GraphAttribute("active") == "accountEnabled"
    ensures GraphAttribute("displayName") == "displayName"
  {
  }

  /**
   * The rendered pieces of the examples, joined. The facts about literals are
   * kept in small lemmas of their own so that the solver evaluates each of
   * them apart from the filter functions.
   */
  lemma JoinedExamples()
    ensures "userPrincipalName" + " " + "eq" + " " + "'a@b.com'" == "userPrincipalName eq 'a@b.com'"
    ensures "accountEnabled" + " " + "eq" + " " + "true" == "accountEnabled eq true"
    ensures "displayName" + " " + "eq" + " " + "'John Smith'" == "displayName eq 'John Smith'"
  {
  }

  lemma WellSplitUserNameExample()
    ensures WellSplit("userName", " ", "eq", " ", true, "a@b.com", "\"")
    ensures Compose("userName", " ", "eq", " ", true, "a@b.com", "\"") == "userName eq \"a@b.com\""
  {
    VisibleAsciiHasNoSpace("userName");
    assert Compose("userName", " ", "eq", " ", true, "a@b.com", "\"") == "userName eq \"a@b.com\"";
  }

  /** A quoted string value is re-quoted with single quotes and the attribute renamed. */
  lemma TranslateUserNameExample()
    ensures ConvertToGraphFilter(Some("userName eq \"a@b.com\"")) == "userPrincipalName eq 'a@b.com'"
  {
    WellSplitUserNameExample();
    RenderUserNameExample();
    TranslatesTo("userName eq \"a@b.com\"", "userName", "eq", true, "a@b.com", "\"", "userPrincipalName eq 'a@b.com'");
  }

  lemma RenderUserNameExample()
    ensures "eq" in Operators && "eq" != "pr"
    ensures GraphAttribute("userName") + " " + Operators["eq"] + " " + RenderValue("a@b.com") == "userPrincipalName eq 'a@b.com'"
  {
    EqOperatorExample();
    AttributeExamples();
    ValueUserNameExample();
    JoinedExamples();
  }

  lemma ValueUserNameExample()
    ensures RenderValue("a@b.com") == "'a@b.com'"
  {
    var value := "a@b.com";
    assert !IsDigits(value) by { assert value[0] == 'a'; }
    QuotedRendering(value);
  }

  lemma WellSplitBooleanExample()
    ensures WellSplit("active", " ", "eq", " ", false, "True", "")
    ensures Compose("active", " ", "eq", " ", false, "True", "") == "active eq True"
  {
    VisibleAsciiHasNoSpace("active");
    assert Compose("active", " ", "eq", " ", false, "True", "") == "active eq True";
  }

  /** A boolean value in any case is lower-cased and left unquoted. */
  lemma TranslateBooleanExample()
    ensures ConvertToGraphFilter(Some("active eq True")) == "accountEnabled eq true"
  {
    WellSplitBooleanExample();
    RenderBooleanExample();
    TranslatesTo("active eq True", "active", "eq", false, "True", "", "accountEnabled eq true");
  }

  lemma RenderBooleanExample()
    ensures "eq" in Operators && "eq" != "pr"
    ensures GraphAttribute("active") + " " + Operators["eq"] + " " + RenderValue("True") == "accountEnabled eq true"
  {
    EqOperatorExample();
    AttributeExamples();
    ValueBooleanExample();
    JoinedExamples();
  }

  lemma ValueBooleanExample()
    ensures RenderValue("True") == "true"
  {
    var value := "True";
    assert Lower(value) == "true";
  }

  lemma WellSplitUnquotedExample()
    ensures WellSplit("displayName", " ", "eq", " ", false, "John Smith", "")
    ensures Compose("displayName", " ", "eq", " ", false, "John Smith", "") == "displayName eq John Smith"
  {
    VisibleAsciiHasNoSpace("displayName");
    assert "John Smith"[0] == 'J';
    assert Compose("displayName", " ", "eq", " ", false, "John Smith", "") == "displayName eq John Smith";
  }

  /** An unquoted value runs on across spaces, up to a double quote or the end. */
  lemma TranslateUnquotedExample()
    ensures ConvertToGraphFilter(Some("displayName eq John Smith")) == "displayName eq 'John Smith'"
  {
    WellSplitUnquotedExample();
    RenderUnquotedExample();
    TranslatesTo("displayName eq John Smith", "displayName", "eq", false, "John Smith", "", "displayName eq 'John Smith'");
  }

  lemma RenderUnquotedExample()
    ensures "eq" in Operators && "eq" != "pr"
    ensures GraphAttribute("displayName") + " " + Operators["eq"] + " " + RenderValue("John Smith") == "displayName eq 'John Smith'"
  {
    EqOperatorExample();
    AttributeExamples();
    ValueUnquotedExample();
    JoinedExamples();
  }

  lemma ValueUnquotedExample()
    ensures RenderValue("John Smith") == "'John Smith'"
  {
    var value := "John Smith";
    assert !IsDigits(value) by { assert value[0] == 'J'; }
    QuotedRendering(value);
  }

  /** `pr` needs whitespace after it: without it the filter is dropped. */
  lemma TranslatePresentWithoutBlankExample()
    ensures ConvertToGraphFilter(Some("displayName pr")) == ""
  {
    var attribute, operator := "displayName", "pr";
    assert attribute + (" " + operator) == "displayName pr";
    VisibleAsciiHasNoSpace(attribute);
    ParseFailsWithoutSecondBlank(attribute, " ", operator);
  }

  /** With the whitespace after it, `pr` becomes a `ne null` test. */
  lemma TranslatePresentExample()
    ensures ConvertToGraphFilter(Some("displayName pr ")) == "displayName ne null"
  {
    var attribute, operator := "displayName", "pr";
    assert Compose(attribute, " ", operator, " ", false, "", "") == "displayName pr ";
    assert GraphAttribute(attribute) + " ne null" == "displayName ne null" by {
      assert GraphAttribute(attribute) == "displayName";
    }
    VisibleAsciiHasNoSpace(attribute);
    TranslateComposed(attribute, " ", operator, " ", false, "", "");
  }

  /** An absent or empty filter, and a filter the regex rejects, translate to the empty fragment. */
  lemma TranslateNothing(s: string)
    requires ParseSimpleFilter(s) == None
    ensures ConvertToGraphFilter(None) == ""
    ensures ConvertToGraphFilter(Some(s)) == ""
  {
  }

  /** Both userName and externalId become userPrincipalName; names outside the table pass through. */
  lemma AttributeTable(attribute: string)
    ensures GraphAttribute("userName") == GraphAttribute("externalId") == "userPrincipalName"
    ensures attribute !in AttributeMapping ==> GraphAttribute(attribute) == attribute
    ensures GraphAttribute(attribute) in AttributeMapping.Values || GraphAttribute(attribute) == attribute
  {
  }

  // ---------------------------------------------------------------------------
  // Reading a rendered value back as an OData literal

  /** Removes the OData escaping of a string literal's body ('' stands for '); None if a quote is left single. */
  function Unescape(t: string): Option<string> {
    if t == [] then Some([])
    else if t[0] == '\'' then
      if |t| >= 2 && t[1] == '\'' then
        match Unescape(t[2..])
        case Some(u) => Some("'" + u)
        case None => None
      else None
    else
      match Unescape(t[1..])
      case Some(u) => Some([t[0]] + u)
      case None => None
  }

  /** Reads an OData null, boolean, integer or string literal. */
  function ReadLiteral(r: string): Option<Json> {
    if r == "null" then Some(Null)
    else if r == "true" then Some(Bool(true))
    else if r == "false" then Some(Bool(false))
    else if IsDigits(r) then Some(Int(DigitsValue(r)))
    else if |r| >= 2 && r[0] == '\'' && r[|r| - 1] == '\'' then
      match Unescape(r[1..|r| - 1])
      case Some(t) => Some(Str(t))
      case None => None
    else None
  }

  /** The type the heuristic gives a filter value. */
  function TypedValue(value: string): Json {
    var lower := Lower(value);
    if lower == "true" then Bool(true)
    else if lower == "false" then Bool(false)
    else if IsDigits(value) then Int(DigitsValue(value))
    else Str(value)
  }

  lemma {:induction false} UnescapePlain(t: string)
    requires '\'' !in t
    ensures Unescape(t) == Some(t)
  {
    if t != [] {
      UnescapePlain(t[1..]);
      assert [t[0]] + t[1..] == t;
    }
  }

  /**
   * A rendered value is the OData literal of the value the heuristic assigns:
   * a boolean for true/false in any case, an integer for digits, and the
   * string itself otherwise, as long as it contains no single quote.
   */
  lemma RenderedValueReadsBack(value: string)
    requires '\'' !in value
    ensures ReadLiteral(RenderValue(value)) == Some(TypedValue(value))
  {
    var lower := Lower(value);
    if lower == "true" || lower == "false" {
    } else if IsDigits(value) {
      DigitsReadBack(value);
    } else {
      QuotedReadsBack(value);
    }
  }

  lemma DigitsReadBack(digits: string)
    requires IsDigits(digits)
    ensures ReadLiteral(digits) == Some(Int(DigitsValue(digits)))
  {
    assert '0' <= digits[0] <= '9';
  }

  lemma QuotedReadsBack(value: string)
    requires '\'' !in value
    ensures ReadLiteral("'" + value + "'") == Some(Str(value))
  {
    var r := "'" + value + "'";
    assert r[0] == '\'' && r[1..|r| - 1] == value;
    assert !IsDigits(r);
    UnescapePlain(value);
  }

  /** A single quote that is not doubled leaves the literal's body malformed. */
  lemma {:induction false} UnescapeLoneQuote(a: string, b: string)
    requires '\'' !in a
    requires b == [] || b[0] != '\''
    ensures Unescape(a + "'" + b) == None
  {
    if a != [] {
      assert (a + "'" + b)[1..] == a[1..] + "'" + b;
      UnescapeLoneQuote(a[1..], b);
    } else {
      assert a + "'" + b == "'" + b;
    }
  }

  /**
   * A value holding a single quote that is not doubled is quoted without
   * escaping, so the literal sent upstream does not read back.
   */
  lemma LoneQuoteIsMalformed(a: string, b: string)
    requires '\'' !in a
    requires b == [] || b[0] != '\''
    ensures RenderValue(a + "'" + b) == "'" + (a + "'" + b) + "'"
    ensures ReadLiteral(RenderValue(a + "'" + b)) == None
  {
    var value := a + "'" + b;
    assert value[|a|] == '\'';
    QuoteMakesString(value, |a|);
    UnescapeLoneQuote(a, b);
    MalformedBodyIsUnread(value);
  }

  /** A value with a single quote anywhere is neither a boolean nor digits, so it is rendered quoted. */
  lemma QuoteMakesString(value: string, i: nat)
    requires i < |value| && value[i] == '\''
    ensures RenderValue(value) == "'" + value + "'"
  {
    assert Lower(value)[i] == '\'';
    assert Lower(value) != "true" && Lower(value) != "false";
    assert !IsDigits(value);
  }

  /** A quoted literal whose body does not unescape is not read. */
  lemma MalformedBodyIsUnread(body: string)
    requires Unescape(body) == None
    ensures ReadLiteral("'" + body + "'") == None
  {
    var r := "'" + body + "'";
    assert r[0] == '\'' && r[1..|r| - 1] == body;
    assert !IsDigits(r);
  }

  // ---------------------------------------------------------------------------
  // Reading a translated filter back as an OData comparison

  /** An OData comparison `<property> <operator> <literal>`. */
  datatype Comparison = Comparison(property: string, operator: string, operand: Json)

  /** The index of the first space in `s`, or `|s|` when there is none. */
  function SpaceAt(s: string): (i: nat)
    ensures i <= |s|
  {
    if s == [] || s[0] == ' ' then 0 else 1 + SpaceAt(s[1..])
  }

  /**
   * Reads a Graph `$filter` comparison: a property and an operator, each a
   * non-empty word ended by a single space, then a literal up to the end.
   */
  function ReadComparison(f: string): Option<Comparison> {
    var i := SpaceAt(f);
    if i == 0 || i == |f| then None
    else
      var afterProperty := f[i + 1..];
      var j := SpaceAt(afterProperty);
      if j == 0 || j == |afterProperty| then None
      else
        match ReadLiteral(afterProperty[j + 1..])
        case Some(operand) => Some(Comparison(f[..i], afterProperty[..j], operand))
        case None => None
  }

  lemma {:induction false} SpaceAfterWord(word: string, rest: string)
    requires NoSpace(word)
    ensures SpaceAt(word + " " + rest) == |word|
  {
    if word != [] {
      assert (word + " " + rest)[1..] == word[1..] + " " + rest;
      SpaceAfterWord(word[1..], rest);
    } else {
      assert word + " " + rest == " " + rest;
    }
  }

  /** A word followed by a space is read as that word, and reading resumes after the space. */
  lemma WordThenRest(word: string, rest: string)
    requires NoSpace(word)
    ensures var f := word + " " + rest;
            SpaceAt(f) == |word| && f[..|word|] == word && f[|word| + 1..] == rest
  {
    SpaceAfterWord(word, rest);
  }

  /** Two words and a literal, separated by single spaces, read back as that comparison. */
  lemma ComparisonReadsBack(property: string, operator: string, literal: string, operand: Json)
    requires Token(property) && Token(operator) && ReadLiteral(literal) == Some(operand)
    ensures ReadComparison(property + " " + operator + " " + literal) == Some(Comparison(property, operator, operand))
  {
    var afterProperty := operator + " " + literal;
    var f := property + " " + afterProperty;
    assert f == property + " " + operator + " " + literal;
    WordThenRest(property, afterProperty);
    WordThenRest(operator, literal);
    ReadOfPieces(f, property, afterProperty, operator, literal, operand);
  }

  lemma ReadOfPieces(f: string, property: string, afterProperty: string, operator: string, literal: string, operand: Json)
    requires 0 < |property| < |f| && SpaceAt(f) == |property|
    requires f[..|property|] == property && f[|property| + 1..] == afterProperty
    requires 0 < |operator| < |afterProperty| && SpaceAt(afterProperty) == |operator|
    requires afterProperty[..|operator|] == operator && afterProperty[|operator| + 1..] == literal
    requires ReadLiteral(literal) == Some(operand)
    ensures ReadComparison(f) == Some(Comparison(property, operator, operand))
  {
  }

  /** `ne null` is the operator `ne` and the null literal. */
  lemma NotNullIsWords(property: string)
    ensures property + " ne null" == property + " " + "ne" + " " + "null"
    ensures Token("ne") && ReadLiteral("null") == Some(Null)
  {
    VisibleAsciiHasNoSpace("ne");
    var suffix := " ne null";
    assert suffix == " " + "ne" + " " + "null";
  }

  /** Every operator but `pr` becomes a single Graph word. */
  lemma GraphOperatorIsWord(operator: string)
    requires operator in Operators && operator != "pr"
    ensures Token(Operators[operator])
  {
    var graph := Operators[operator];
    if graph == "contains" {
      VisibleAsciiHasNoSpace("contains");
    } else if graph == "startswith" {
      VisibleAsciiHasNoSpace("startswith");
    } else if graph == "endswith" {
      VisibleAsciiHasNoSpace("endswith");
    } else {
      assert |graph| == 2 && '!' <= graph[0] <= '~' && '!' <= graph[1] <= '~';
      VisibleAsciiHasNoSpace(graph);
    }
  }

  /**
   * Read back as an OData comparison, a translated filter names the Graph
   * property of the attribute, the Graph operator and the value as the
   * heuristic types it; `pr` reads back as `ne null`. A value holding a
   * single quote is the exception (`LoneQuoteIsMalformed`).
   */
  lemma TranslatedFilterReadsBack(s: string, clause: Clause)
    requires ParseSimpleFilter(s) == Some(clause)
    ensures clause.operator == "pr" ==>
              ReadComparison(ConvertToGraphFilter(Some(s)))
                == Some(Comparison(GraphAttribute(clause.attribute), "ne", Null))
    ensures clause.operator in Operators && clause.operator != "pr" && '\'' !in clause.value ==>
              ReadComparison(ConvertToGraphFilter(Some(s)))
                == Some(Comparison(GraphAttribute(clause.attribute), Operators[clause.operator], TypedValue(clause.value)))
  {
    var out := ConvertToGraphFilter(Some(s));
    var property := GraphAttribute(clause.attribute);
    assert s != "";
    if clause.operator == "pr" {
      assert out == property + " ne null";
      NotNullIsWords(property);
      ComparisonReadsBack(property, "ne", "null", Null);
    } else if clause.operator in Operators && '\'' !in clause.value {
      var rendered := RenderValue(clause.value);
      assert out == property + " " + Operators[clause.operator] + " " + rendered;
      GraphOperatorIsWord(clause.operator);
      RenderedValueReadsBack(clause.value);
      ComparisonReadsBack(property, Operators[clause.operator], rendered, TypedValue(clause.value));
    }
  }
}
