/**
 * The CTest results normaliser (src/ctest.ts, decodeOutputMeasurement and
 * cleanupResultsXML): the tree xml2js builds from `Test.xml`, in which every child
 * element is a one-element array, is unwrapped into clean `CTestResults`.
 *
 * xml2js never produces an empty child array: a child element that is absent is an
 * absent key, and indexing `[0]` or calling `.map` on it throws a TypeError.  The raw
 * trees below write an absent child as an empty sequence, and every access to one is
 * a `Failure(Missing(..))`.
 */
module ResultsXml {
  import opened Wrappers

  /** Raw bytes, as a Node `Buffer` holds them. */
  type Bytes = seq<bv8>

  /** Node's `Buffer` and `zlib`, which the model does not interpret. */
  datatype Codecs = Codecs(
    /** `new Buffer(text, encoding)`; throws on an unknown encoding. */
    fromString: (string, string) -> Result<Bytes, string>,
    /** `zlib.unzipSync`; throws on data that is not deflate or gzip. */
    unzip: Bytes -> Result<Bytes, string>,
    /** `buffer.toString('utf-8')`. */
    toUtf8: Bytes -> string)

  /** Encoding text as UTF-8 and decoding it again gives the text back. */
  ghost predicate Utf8RoundTrips(codecs: Codecs) {
    forall s :: codecs.fromString(s, "utf-8").Success? && codecs.toUtf8(codecs.fromString(s, "utf-8").value) == s
  }

  datatype CleanupError = Missing(node: string) | DecodeFailed(reason: string)

  /** A `<Value>` element: with no attributes xml2js yields its bare text; with
      attributes it yields `{$: attributes, _: text}`, without `_` when the text is
      empty. */
  datatype EncodedValue =
    | TextOnly(content: string)
    | WithAttributes(attributes: map<string, string>, text: Option<string>)

  datatype RawMeasurement = RawMeasurement(value: seq<EncodedValue>)
  datatype RawResults = RawResults(measurement: seq<RawMeasurement>)
  datatype RawTest = RawTest(
    attributes: Option<map<string, string>>,
    fullCommandLine: seq<string>,
    fullName: seq<string>,
    name: seq<string>,
    path: seq<string>,
    results: seq<RawResults>)
  datatype RawTestList = RawTestList(test: seq<string>)
  datatype RawTesting = RawTesting(testList: seq<RawTestList>, test: seq<RawTest>)
  datatype RawSite = RawSite(attributes: Option<map<string, string>>, testing: seq<RawTesting>)
  /** The parsed document: `Site` is absent when the root element is not `<Site>`. */
  datatype MessyResults = MessyResults(site: Option<RawSite>)

  datatype TestMeasurement = TestMeasurement(kind: string, name: string, value: string)

  /** A test's result; `status` is `undefined` when the element has no Status. */
  datatype Test = Test(
    status: Option<string>,
    fullCommandLine: string,
    fullName: string,
    name: string,
    path: string,
    measurements: map<string, TestMeasurement>,
    output: string)
  datatype TestingData = TestingData(testList: seq<string>, test: seq<Test>)
  datatype SiteData = SiteData(attributes: Option<map<string, string>>, testing: TestingData)
  datatype CTestResults = CTestResults(site: SiteData)

  /** JavaScript's `!!` on an attribute that may be absent. */
  predicate Truthy(attribute: Option<string>) {
    attribute.Some? && attribute.value != ""
  }

  function Attribute(attributes: map<string, string>, key: string): Option<string> {
    if key in attributes then Some(attributes[key]) else None
  }

  /** `children[0]`, which throws when the child element is absent. */
  function First<T>(children: seq<T>, node: string): Result<T, CleanupError> {
    if children == [] then Failure(Missing(node)) else Success(children[0])
  }

  /** decodeOutputMeasurement: the text, as a buffer in its declared encoding (UTF-8
      when none is declared), unzipped when a compression is declared, read as UTF-8. */
  function DecodeOutputMeasurement(node: EncodedValue, codecs: Codecs): Result<string, CleanupError> {
    match node
    case TextOnly(_) => Failure(Missing("Value.$"))
    case WithAttributes(attributes, text) =>
      if text.None? then Failure(Missing("Value._"))
      else
        var buffer :- Decoded(codecs.fromString(text.value, BufferEncoding(attributes)));
        var unzipped :- if Truthy(Attribute(attributes, "compression")) then Decoded(codecs.unzip(buffer)) else Success(buffer);
        Success(codecs.toUtf8(unzipped))
  }

  /** The encoding `new Buffer` is given: the declared one when it is truthy, UTF-8
      otherwise. */
  function BufferEncoding(attributes: map<string, string>): string {
    var encoding := Attribute(attributes, "encoding");
    if Truthy(encoding) then encoding.value else "utf-8"
  }

  function Decoded(r: Result<Bytes, string>): Result<Bytes, CleanupError> {
    match r
    case Success(b) => Success(b)
    case Failure(e) => Failure(DecodeFailed(e))
  }

  /** With neither an encoding nor a compression declared, the payload text passes
      through unchanged. */
  lemma PlainOutputPassesThrough(attributes: map<string, string>, text: string, codecs: Codecs)
    requires Utf8RoundTrips(codecs)
    requires !Truthy(Attribute(attributes, "encoding")) && !Truthy(Attribute(attributes, "compression"))
    ensures DecodeOutputMeasurement(WithAttributes(attributes, Some(text)), codecs) == Success(text)
  {
    assert codecs.fromString(text, "utf-8").Success?;
  }

  /** The encoding attribute alone decides how the text becomes a buffer: a truthy one
      is handed over as is, and otherwise UTF-8 is used. */
  lemma EncodingPicksBuffer(attributes: map<string, string>, text: string, codecs: Codecs)
    ensures Truthy(Attribute(attributes, "encoding")) ==> BufferEncoding(attributes) == attributes["encoding"]
    ensures !Truthy(Attribute(attributes, "encoding")) ==> BufferEncoding(attributes) == "utf-8"
    ensures var buffer := codecs.fromString(text, BufferEncoding(attributes));
            buffer.Failure? ==>
              DecodeOutputMeasurement(WithAttributes(attributes, Some(text)), codecs) == Failure(DecodeFailed(buffer.error))
  {
  }

  /** Once the text is a buffer, the compression attribute alone decides whether it is
      unzipped before the UTF-8 rendering: a truthy one, whatever its value, unzips it,
      and otherwise the buffer is rendered as is. */
  lemma EncodedOutputIsDecodedThenUnzipped(attributes: map<string, string>, text: string, codecs: Codecs, buffer: Bytes)
    requires codecs.fromString(text, BufferEncoding(attributes)) == Success(buffer)
    ensures var r := DecodeOutputMeasurement(WithAttributes(attributes, Some(text)), codecs);
            && (!Truthy(Attribute(attributes, "compression")) ==> r == Success(codecs.toUtf8(buffer)))
            && (Truthy(Attribute(attributes, "compression")) && codecs.unzip(buffer).Failure? ==>
                  r == Failure(DecodeFailed(codecs.unzip(buffer).error)))
            && (Truthy(Attribute(attributes, "compression")) && codecs.unzip(buffer).Success? ==>
                  r == Success(codecs.toUtf8(codecs.unzip(buffer).value)))
  {
  }

  /** The output of a raw test: `Results[0].Measurement[0].Value[0]`, decoded. */
  function TestOutput(t: RawTest, codecs: Codecs): Result<string, CleanupError> {
    var results :- First(t.results, "Results");
    var measurement :- First(results.measurement, "Measurement");
    var value :- First(measurement.value, "Value");
    DecodeOutputMeasurement(value, codecs)
  }

  /** One raw `<Test>` unwrapped, its fields read in the order the object literal
      lists them. */
  function CleanTest(t: RawTest, codecs: Codecs): Result<Test, CleanupError> {
    var fullName :- First(t.fullName, "FullName");
    var fullCommandLine :- First(t.fullCommandLine, "FullCommandLine");
    var name :- First(t.name, "Name");
    var path :- First(t.path, "Path");
    var attributes :- t.attributes.ToResult(Missing("Test.$"));
    var output :- TestOutput(t, codecs);
    Success(Test(Attribute(attributes, "Status"), fullCommandLine, fullName, name, path, map[], output))
  }

  /** `tests.map(CleanTest)`; the first failure is thrown. */
  function CleanTests(tests: seq<RawTest>, codecs: Codecs): (r: Result<seq<Test>, CleanupError>)
    ensures r.Success? ==> |r.value| == |tests|
  {
    if tests == [] then Success([])
    else
      var first :- CleanTest(tests[0], codecs);
      var rest :- CleanTests(tests[1..], codecs);
      Success([first] + rest)
  }

  /** `testList.map(l => l.Test[0])`. */
  function CleanTestList(entries: seq<RawTestList>): (r: Result<seq<string>, CleanupError>)
    ensures r.Success? ==> |r.value| == |entries|
  {
    if entries == [] then Success([])
    else
      var first :- First(entries[0].test, "TestList.Test");
      var rest :- CleanTestList(entries[1..]);
      Success([first] + rest)
  }

  /** `.map` on a child array, which throws when the child element is absent. */
  function Present<T>(children: seq<T>, node: string): Result<seq<T>, CleanupError> {
    if children == [] then Failure(Missing(node)) else Success(children)
  }

  /** cleanupResultsXML. */
  function CleanupResultsXml(messy: MessyResults, codecs: Codecs): Result<CTestResults, CleanupError> {
    var site :- messy.site.ToResult(Missing("Site"));
    var testing :- First(site.testing, "Testing");
    var entries :- Present(testing.testList, "TestList");
    var testList :- CleanTestList(entries);
    var rawTests :- Present(testing.test, "Test");
    var tests :- CleanTests(rawTests, codecs);
    Success(CTestResults(SiteData(site.attributes, TestingData(testList, tests))))
  }

  // ---------------------------------------------------------------------------
  // What cleanup promises

  /** Every child a raw test's cleanup reads is present and its output decodes. */
  predicate WellFormedTest(t: RawTest, codecs: Codecs) {
    && t.fullName != [] && t.fullCommandLine != [] && t.name != [] && t.path != []
    && t.attributes.Some?
    && TestOutput(t, codecs).Success?
  }

  lemma CleanTestSucceedsIff(t: RawTest, codecs: Codecs)
    ensures CleanTest(t, codecs).Success? <==> WellFormedTest(t, codecs)
  {
  }

  /** A raw test that cleans up becomes a test carrying its first FullName,
      FullCommandLine, Name and Path, its Status attribute, no measurements, and its
      decoded output. */
  lemma CleanTestFields(t: RawTest, codecs: Codecs)
    requires WellFormedTest(t, codecs)
    ensures var c := CleanTest(t, codecs).value;
            && c.fullName == t.fullName[0] && c.fullCommandLine == t.fullCommandLine[0]
            && c.name == t.name[0] && c.path == t.path[0]
            && c.status == Attribute(t.attributes.value, "Status")
            && c.measurements == map[]
            && c.output == TestOutput(t, codecs).value
  {
  }

  lemma {:induction false} CleanTestsSucceedsIff(tests: seq<RawTest>, codecs: Codecs)
    ensures CleanTests(tests, codecs).Success? <==> forall i :: 0 <= i < |tests| ==> WellFormedTest(tests[i], codecs)
  {
    if tests != [] {
      CleanTestsSucceedsIff(tests[1..], codecs);
      assert forall i :: 1 <= i < |tests| ==> tests[i] == tests[1..][i - 1];
    }
  }

  /** One clean test per raw test, in order. */
  lemma {:induction false} CleanTestsInOrder(tests: seq<RawTest>, codecs: Codecs)
    requires CleanTests(tests, codecs).Success?
    ensures forall i :: 0 <= i < |tests| ==> CleanTest(tests[i], codecs) == Success(CleanTests(tests, codecs).value[i])
  {
    if tests != [] {
      CleanTestsInOrder(tests[1..], codecs);
    }
  }

  lemma {:induction false} CleanTestListSucceedsIff(entries: seq<RawTestList>)
    ensures CleanTestList(entries).Success? <==> forall i :: 0 <= i < |entries| ==> entries[i].test != []
  {
    if entries != [] {
      CleanTestListSucceedsIff(entries[1..]);
      assert forall i :: 1 <= i < |entries| ==> entries[i] == entries[1..][i - 1];
    }
  }

  /** The test list is the first `<Test>` of each `<TestList>` entry, in order. */
  lemma {:induction false} CleanTestListInOrder(entries: seq<RawTestList>)
    requires CleanTestList(entries).Success?
    ensures forall i :: 0 <= i < |entries| ==> entries[i].test != [] && CleanTestList(entries).value[i] == entries[i].test[0]
  {
    if entries != [] {
      CleanTestListInOrder(entries[1..]);
    }
  }

  /** Cleanup succeeds exactly when the document has a Site with a Testing element,
      a non-empty TestList whose every entry has a Test, and Test elements that are all
      well formed. */
  lemma CleanupSucceedsIff(messy: MessyResults, codecs: Codecs)
    ensures CleanupResultsXml(messy, codecs).Success? <==>
            && messy.site.Some? && messy.site.value.testing != []
            && var testing := messy.site.value.testing[0];
               && testing.testList != [] && (forall i :: 0 <= i < |testing.testList| ==> testing.testList[i].test != [])
               && testing.test != [] && (forall i :: 0 <= i < |testing.test| ==> WellFormedTest(testing.test[i], codecs))
  {
    if messy.site.Some? && messy.site.value.testing != [] {
      var testing := messy.site.value.testing[0];
      CleanTestListSucceedsIff(testing.testList);
      CleanTestsSucceedsIff(testing.test, codecs);
    }
  }

  /** A successful cleanup keeps the Site attributes, yields the first Test of each
      TestList entry in order, and one clean test per raw test in order. */
  lemma CleanupContents(messy: MessyResults, codecs: Codecs)
    requires CleanupResultsXml(messy, codecs).Success?
    ensures var r := CleanupResultsXml(messy, codecs).value;
            var testing := messy.site.value.testing[0];
            && r.site.attributes == messy.site.value.attributes
            && |r.site.testing.testList| == |testing.testList|
            && (forall i :: 0 <= i < |testing.testList| ==> testing.testList[i].test != [] && r.site.testing.testList[i] == testing.testList[i].test[0])
            && |r.site.testing.test| == |testing.test|
            && (forall i :: 0 <= i < |testing.test| ==> CleanTest(testing.test[i], codecs) == Success(r.site.testing.test[i]))
  {
    var testing := messy.site.value.testing[0];
    CleanTestListInOrder(testing.testList);
    CleanTestsInOrder(testing.test, codecs);
  }

  /** Every clean test has an empty measurement map. */
  lemma {:induction false} CleanTestsHaveNoMeasurements(tests: seq<RawTest>, codecs: Codecs)
    requires CleanTests(tests, codecs).Success?
    ensures forall t :: t in CleanTests(tests, codecs).value ==> t.measurements == map[]
  {
    if tests != [] {
      CleanTestsHaveNoMeasurements(tests[1..], codecs);
    }
  }
}
