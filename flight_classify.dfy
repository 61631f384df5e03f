/** Intent normalisation in `classifyFlightIntent`
    (`src/agent/flights/nodes/classify.ts`): the model's reply is lowercased
    and trimmed, and anything but one of the three intents becomes "search".
    The model call is left out; its reply content is the input. */
module FlightClassify {
  import opened Wrappers
  import opened Strings

  datatype Intent = Search | Book | Cancel

  function IntentName(i: Intent): string
  {
    match i
    case Search => "search"
    case Book => "book"
    case Cancel => "cancel"
  }

  /** `response.content?.toString().toLowerCase().trim()`, with an absent
      content read as "" by the `intent || ""` that follows. */
  function Normalize(content: Option<string>): string
  {
    if content.Some? then Trim(Lower(content.value)) else ""
  }

  /** `validIntents.includes(intent || "") ? intent : "search"`. */
  function Classify(content: Option<string>): (i: Intent)
    ensures Normalize(content) == "book" <==> i == Book
    ensures Normalize(content) == "cancel" <==> i == Cancel
    ensures i == Search <==> Normalize(content) != "book" && Normalize(content) != "cancel"
  {
    var s := Normalize(content);
    if s == "book" then Book
    else if s == "cancel" then Cancel
    else Search
  }

  /** The node's update: the intent, and no message. */
  datatype ClassifyUpdate = ClassifyUpdate(intent: Intent)

  /** The node's update once the model has replied with `content`: "book"
      and "cancel" (after lower-casing and trimming) select those intents,
      anything else selects search. */
  function ClassifyFlightIntent(content: Option<string>): (u: ClassifyUpdate)
    ensures u.intent == Book <==> Normalize(content) == "book"
    ensures u.intent == Cancel <==> Normalize(content) == "cancel"
    ensures u.intent == Search <==> Normalize(content) != "book" && Normalize(content) != "cancel"
  {
    ClassifyUpdate(Classify(content))
  }

  /** A resolved intent is the normalised reply when that is a valid intent
      name, and "search" otherwise. */
  lemma ClassifyMembership(content: Option<string>)
    ensures Normalize(content) in {"search", "book", "cancel"} ==> IntentName(Classify(content)) == Normalize(content)
    ensures Normalize(content) !in {"search", "book", "cancel"} ==> Classify(content) == Search
  {
  }

  lemma NameNormal(i: Intent)
    ensures Normalize(Some(IntentName(i))) == IntentName(i)
  {
    var s := IntentName(i);
    LowerNoUpper(s);
    TrimNoSpaces(s);
  }

  /** Feeding a resolved intent back yields the same intent. */
  lemma ClassifyIdempotent(content: Option<string>)
    ensures Classify(Some(IntentName(Classify(content)))) == Classify(content)
  {
    NameNormal(Classify(content));
  }

  lemma LowerSpacedBook()
    ensures Lower(" Book\n") == " book\n"
  {
  }

  lemma TrimSpacedBook()
    ensures Trim(" book\n") == "book"
  {
    assert TrimStart(" book\n") == "book\n";
    assert TrimEnd("book\n") == "book";
  }

  lemma NormalizeSpacedBook()
    ensures Normalize(Some(" Book\n")) == "book"
  {
    LowerSpacedBook();
    TrimSpacedBook();
  }

  lemma NormalizeBookIt()
    ensures Normalize(Some("Book it")) == "book it"
  {
    assert Lower("Book it") == "book it";
    TrimNoSpaces("book it");
  }

  /** Case and surrounding white space do not matter: " Book\n" is a
      booking. */
  lemma ClassifySpacedBook()
    ensures Classify(Some(" Book\n")) == Book
  {
    NormalizeSpacedBook();
  }

  /** Any other word does matter: "Book it" is a search, and so is an absent
      reply. */
  lemma ClassifyOtherReplies()
    ensures Classify(Some("Book it")) == Search
    ensures Classify(None) == Search
  {
    NormalizeBookIt();
  }
}
