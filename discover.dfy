/**
 * The place search page (pages/Discover.tsx): a prompt checked for blankness,
 * a search whose result text is rendered line by line, and the list of map
 * sources among the result's grounding chunks. The rendering is shared with
 * the image search page.
 */
module Discover {
  import opened Types
  import Text
  import opened Gateway
  import PostForm

  const DefaultPrompt: string := "What good Italian restaurants are nearby?"
  const EmptyPromptMessage: string := "Please enter something to search for."
  const UnknownErrorMessage: string := "An unknown error occurred"
  const LocationErrorMessage: string := "Could not get location. Please enable location services in your browser."
  const FetchingStatus: string := "Fetching location..."
  const AcquiredStatus: string := "Location acquired successfully."
  const FailedStatus: string := "Failed to get location. Please enable it and refresh."

  // ---- result rendering ----

  /** One rendered line: `<li>` or `<p>`. */
  datatype Block = ListItem(text: string) | Paragraph(text: string)

  /** A line starting with "* " is a list item without those two characters; any other line is a paragraph. */
  function Classify(line: string): (b: Block)
    ensures b.ListItem? <==> Text.StartsWith(line, "* ")
    ensures b.ListItem? ==> "* " + b.text == line
    ensures b.Paragraph? ==> b.text == line
  {
    if Text.StartsWith(line, "* ") then
      assert line == line[..2] + line[2..];
      ListItem(line[2..])
    else Paragraph(line)
  }

  /** The line a block was rendered from. */
  function Source(b: Block): string {
    match b
    case ListItem(t) => "* " + t
    case Paragraph(t) => t
  }

  /** `text.split('\n').map(...)`: one block per line, in order. */
  function RenderLines(text: string): (blocks: seq<Block>)
    ensures |blocks| == |Text.Split(text, '\n')|
    ensures forall i :: 0 <= i < |blocks| ==> blocks[i] == Classify(Text.Split(text, '\n')[i])
  {
    var lines := Text.Split(text, '\n');
    seq(|lines|, i requires 0 <= i < |lines| => Classify(lines[i]))
  }

  /** Rendering loses nothing: the blocks' source lines, joined by newlines, give back the text. */
  lemma RenderingIsLossless(text: string)
    ensures var blocks := RenderLines(text);
      Text.Join(seq(|blocks|, i requires 0 <= i < |blocks| => Source(blocks[i])), '\n') == text
  {
    var blocks := RenderLines(text);
    var lines := Text.Split(text, '\n');
    assert seq(|blocks|, i requires 0 <= i < |blocks| => Source(blocks[i])) == lines;
    Text.JoinSplit(text, '\n');
  }

  /** `chunk.maps && <li>...</li>`: the map references in order, skipping chunks without one. */
  function Sources(chunks: seq<Chunk>): (refs: seq<MapsRef>)
    ensures |refs| <= |chunks|
    ensures forall m :: m in refs <==> Chunk(Some(m)) in chunks
    ensures (forall c :: c in chunks ==> c.maps.None?) ==> refs == []
  {
    if |chunks| == 0 then []
    else
      var rest := Sources(chunks[1..]);
      assert chunks == [chunks[0]] + chunks[1..];
      if chunks[0].maps.Some? then [chunks[0].maps.value] + rest else rest
  }

  /** One chunk gives its map reference, or nothing. */
  lemma OneChunkSources(c: Chunk)
    ensures Sources([c]) == if c.maps.Some? then [c.maps.value] else []
  {
    assert [c][1..] == [];
  }

  /**
   * The list of two runs of chunks is the first run's list followed by the
   * second's. With `OneChunkSources` this fixes the list chunk by chunk, in
   * order: no reordering and no repeats beyond the chunks' own.
   */
  lemma {:induction false} SourcesAppend(a: seq<Chunk>, b: seq<Chunk>)
    ensures Sources(a + b) == Sources(a) + Sources(b)
    decreases |a|
  {
    if |a| == 0 {
      assert a + b == b;
    } else {
      var head := if a[0].maps.Some? then [a[0].maps.value] else [];
      assert (a + b)[0] == a[0];
      calc {
        Sources(a + b);
        head + Sources((a + b)[1..]);
        { assert (a + b)[1..] == a[1..] + b; }
        head + Sources(a[1..] + b);
        { SourcesAppend(a[1..], b); }
        head + (Sources(a[1..]) + Sources(b));
        (head + Sources(a[1..])) + Sources(b);
        Sources(a) + Sources(b);
      }
    }
  }

  /** The "Sources" section, absent when the result has no chunks at all. */
  function SourcesSection(r: SearchResult): (s: Option<seq<MapsRef>>)
    ensures s.None? <==> |r.groundingChunks| == 0
    ensures s.Some? ==> s.value == Sources(r.groundingChunks)
  {
    if |r.groundingChunks| == 0 then None else Some(Sources(r.groundingChunks))
  }

  // ---- the page ----

  class Page {
    var prompt: string
    var location: Option<Location>
    var loading: bool
    var error: string
    var result: Option<SearchResult>
    var locationStatus: string

    constructor ()
      ensures prompt == DefaultPrompt && location == None && !loading
      ensures error == "" && result == None && locationStatus == FetchingStatus
      ensures SearchDisabled()
    {
      prompt := DefaultPrompt;
      location := None;
      loading := false;
      error := "";
      result := None;
      locationStatus := FetchingStatus;
    }

    /**
     * The search button is disabled while searching or without a location:
     * once enabled, a click always has a position to send and no call in flight.
     */
    function SearchDisabled(): (d: bool)
      reads this
      ensures !d ==> location.Some? && !loading
      ensures loading || location.None? ==> d
    {
      loading || location.None?
    }

    method SetPrompt(text: string)
      modifies this
      ensures prompt == text && location == old(location) && loading == old(loading)
      ensures error == old(error) && result == old(result)
    {
      prompt := text;
    }

    /** The geolocation callbacks: a position, or the failure message. */
    method LocationReport(position: Option<Location>)
      modifies this
      ensures position.Some? ==> location == position && locationStatus == AcquiredStatus && error == old(error)
      ensures position.None? ==> location == old(location) && locationStatus == FailedStatus
                                 && error == LocationErrorMessage
      ensures prompt == old(prompt) && loading == old(loading) && result == old(result)
      ensures position.Some? ==> (SearchDisabled() <==> loading)
    {
      if position.Some? {
        location := position;
        locationStatus := AcquiredStatus;
      } else {
        error := LocationErrorMessage;
        locationStatus := FailedStatus;
      }
    }

    /**
     * `handleSearch` up to the await: a blank prompt sets the error and makes
     * no call; otherwise the error and the previous result are cleared and
     * the spinner is on when the call is made.
     */
    method BeginSearch() returns (call: bool)
      modifies this
      ensures call <==> !Text.IsBlank(old(prompt))
      ensures !call ==> error == EmptyPromptMessage && loading == old(loading) && result == old(result)
      ensures call ==> loading && error == "" && result == None
      ensures call ==> SearchDisabled()
      ensures prompt == old(prompt) && location == old(location)
    {
      if Text.IsBlank(prompt) {
        error := EmptyPromptMessage;
        return false;
      }
      loading := true;
      error := "";
      result := None;
      return true;
    }

    /** `handleSearch` after the await: the result, or the error's message; loading ends either way. */
    method CompleteSearch(o: Outcome<SearchResult>)
      modifies this
      ensures !loading
      ensures o.Returned? ==> result == Some(o.value) && error == old(error)
      ensures !o.Returned? ==> result == old(result) && error == ErrorText(o, UnknownErrorMessage)
      ensures prompt == old(prompt) && location == old(location)
      ensures SearchDisabled() <==> location.None?
    {
      if o.Returned? {
        result := Some(o.value);
      } else {
        error := ErrorText(o, UnknownErrorMessage);
      }
      loading := false;
    }

    /** The whole handler as one step: a failed call leaves no stale result behind. */
    method Search(o: Outcome<SearchResult>) returns (called: bool)
      modifies this
      ensures called <==> !Text.IsBlank(old(prompt))
      ensures !called ==> error == EmptyPromptMessage && result == old(result)
      ensures called ==> !loading
      ensures called && o.Returned? ==> result == Some(o.value) && error == ""
      ensures called && !o.Returned? ==> result == None && error == ErrorText(o, UnknownErrorMessage)
    {
      called := BeginSearch();
      if called {
        CompleteSearch(o);
      }
    }
  }

  /**
   * The places page and the post form word their fallback differently (the
   * form's ends with a full stop), so the two show the same text for a failed
   * call exactly when the call threw an `Error`.
   */
  lemma FallbacksDiffer<T>(o: Outcome<T>)
    requires !o.Returned?
    ensures UnknownErrorMessage + "." == PostForm.UnknownErrorMessage
    ensures ErrorText(o, UnknownErrorMessage) == ErrorText(o, PostForm.UnknownErrorMessage) <==> o.ThrewError?
  {
    assert |UnknownErrorMessage| != |PostForm.UnknownErrorMessage|;
    FallbackOnlyForNonErrors(o, UnknownErrorMessage, PostForm.UnknownErrorMessage);
  }
}
