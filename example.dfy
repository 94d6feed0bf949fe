/** The worked example: `{"title": "Hello", "count": 3, "tags": ["a", "b"]}` into French. */
module QueueExample {
  import opened Wrappers
  import opened Json
  import opened Walker
  import opened Batching
  import opened Types
  import opened Provider
  import opened Queue

  const Tags := [Str("a"), Str("b")]
  const Document := Obj([Field("title", Str("Hello")), Field("count", Num("3")), Field("tags", Arr(Tags))])
  const Leaves := [Item([Key("title")], "Hello"), Item([Key("tags"), Index(0)], "a"), Item([Key("tags"), Index(1)], "b")]
  const Answer := [Field("val_0", Str("Bonjour")), Field("val_1", Str("a")), Field("val_2", Str("b"))]
  const TranslatedDocument := Obj([Field("title", Str("Bonjour")), Field("count", Num("3")), Field("tags", Arr(Tags))])

  /** The three strings are found in document order; the number is skipped. */
  lemma ExampleLeaves()
    ensures Extract(Document, []) == Leaves
  {
    var fields := Document.fields;
    assert [Key("tags")] + [Index(0)] == [Key("tags"), Index(0)];
    assert [Key("tags")] + [Index(1)] == [Key("tags"), Index(1)];
    assert [] + [Key("tags")] == [Key("tags")] && [] + [Key("title")] == [Key("title")];
    assert ExtractItems(Tags, 1, [Key("tags")]) == [Item([Key("tags"), Index(1)], "b")];
    assert ExtractItems(Tags, 0, [Key("tags")]) == Leaves[1..];
    assert ExtractFields(fields, 3, []) == [];
    assert ExtractFields(fields, 2, []) == Leaves[1..];
    assert Extract(Num("3"), [Key("count")]) == [];
    assert ExtractFields(fields, 1, []) == Leaves[1..];
    assert Extract(Str("Hello"), [Key("title")]) == Leaves[..1];
    assert ExtractFields(fields, 0, []) == Leaves[..1] + Leaves[1..];
    assert Leaves[..1] + Leaves[1..] == Leaves;
  }

  /** The reply's entries land on the three leaves in order. */
  lemma ExampleWriteBack()
    ensures ApplyReply(Document, Leaves, Answer) == Ok(TranslatedDocument)
  {
    var d1 := TranslatedDocument;
    assert FindKey(Document.fields, "title") == Some(0);
    assert Document.fields[0 := Field("title", Str("Bonjour"))] == d1.fields;
    assert SetAt(Document, [Key("title")], Str("Bonjour")) == Some(d1);
    assert "tags"[1] != "title"[1] && "tags"[0] != "count"[0];
    assert FindKey(d1.fields[2..], "tags") == Some(0);
    assert d1.fields[1..][1..] == d1.fields[2..];
    assert FindKey(d1.fields, "tags") == Some(2);
    assert Tags[0 := Str("a")] == Tags && Tags[1 := Str("b")] == Tags;
    assert d1.fields[2 := Field("tags", Arr(Tags))] == d1.fields;
    assert SetAt(Arr(Tags), [Index(0)], Str("a")) == Some(Arr(Tags));
    assert SetAt(Arr(Tags), [Index(1)], Str("b")) == Some(Arr(Tags));
    assert [Key("tags"), Index(0)][1..] == [Index(0)] && [Key("tags"), Index(1)][1..] == [Index(1)];
    assert Update(d1, [Key("tags"), Index(0)], Str("a")) == Ok(d1);
    assert Update(d1, [Key("tags"), Index(1)], Str("b")) == Ok(d1);
    var writes := ReplyWrites(Leaves, Answer);
    assert writes == [Write([Key("title")], Str("Bonjour")), Write([Key("tags"), Index(0)], Str("a")), Write([Key("tags"), Index(1)], Str("b"))];
    assert WriteAll(d1, writes[3..]) == Ok(d1);
    assert WriteAll(d1, writes[2..]) == Ok(d1);
    assert WriteAll(d1, writes[1..]) == Ok(d1);
  }

  /** The whole job: one chunk, one attempt, the translated copy. */
  lemma TranslatesExampleDocument()
    ensures var job := TranslationJob(UploadedFile("1", "doc.json", Document), Language("fr", "French"));
      var config := Config("model", Settings(true, true, true, Standard, Neutral, "0.5", "", "", 50));
      RunJob(job, config, (prompt: string, t: nat) => Reply(Answer), 0) ==
        (Some(TranslationResult("doc.json", "fr", TranslatedDocument)), 1)
  {
    var config := Config("model", Settings(true, true, true, Standard, Neutral, "0.5", "", "", 50));
    var provider: Oracle := (prompt: string, t: nat) => Reply(Answer);
    ExampleLeaves();
    ExampleWriteBack();
    assert Chunks(Leaves, 50) == [Leaves];
    var prompt := ChunkPrompt(Leaves, "French", config);
    assert Attempts(prompt, provider, 0, DefaultRetries) == (ChunkOutcome.Translated(Answer), 1);
    assert RunChunks(TranslatedDocument, [Leaves], 1, "French", config, provider, 1) == (Ok(TranslatedDocument), 1, 1);
    assert RunChunks(Document, [Leaves], 0, "French", config, provider, 0) == (Ok(TranslatedDocument), 1, 1);
  }
}
