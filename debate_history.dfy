/** The debate transcript: the entry record pushed onto `debateHistory`, and
    the shape facts the debate controller keeps about that array. */
module DebateHistory {
  import opened Wrappers
  import opened Interfaces

  /** All four tags the enumeration declares; the controller only ever
      produces the first two. */
  datatype HistoryType = InternetSearchType | TextResponseType | RoundUpdate | ProviderUpdate

  datatype InternetSearch = InternetSearch(searchQuery: string, searchResponse: seq<Item>)

  /** One transcript entry, with the optional fields of the source record. */
  datatype DebateEntry = DebateEntry(
    kind: HistoryType,
    model: Provider,
    response: Option<string>,
    internetSearch: Option<InternetSearch>,
    roundNumber: Option<int>)

  /** The entry the search tool's handler pushes. */
  function SearchEntry(model: Provider, query: string, results: seq<Item>): DebateEntry {
    DebateEntry(InternetSearchType, model, None, Some(InternetSearch(query, results)), None)
  }

  /** The entry pushed when a provider's answer comes back. */
  function TextEntry(model: Provider, text: string): DebateEntry {
    DebateEntry(TextResponseType, model, Some(text), None, None)
  }

  predicate IsSearch(e: DebateEntry) { e.kind == InternetSearchType }

  predicate IsText(e: DebateEntry) { e.kind == TextResponseType }

  /** An entry as the controller builds it: a search with its search record,
      or a text response with its text, and never a round number. */
  predicate EntryShaped(e: DebateEntry) {
    && e.roundNumber.None?
    && ((IsSearch(e) && e.internetSearch.Some? && e.response.None?)
        || (IsText(e) && e.response.Some? && e.internetSearch.None?))
  }

  /** A transcript made of turns: each search is followed by an entry of the
      same provider, so every run of searches ends in that provider's own
      text response, and the transcript ends with a text response. */
  predicate WellShaped(h: seq<DebateEntry>) {
    && (forall i :: 0 <= i < |h| ==> EntryShaped(h[i]))
    && (forall i :: 0 <= i < |h| - 1 && IsSearch(h[i]) ==> h[i + 1].model == h[i].model)
    && (h != [] ==> IsText(h[|h| - 1]))
  }

  /** The authors of the text responses of `h`, in order. */
  function TextModels(h: seq<DebateEntry>): seq<Provider>
    decreases |h|
  {
    if h == [] then []
    else TextModels(h[..|h| - 1]) + (if IsText(h[|h| - 1]) then [h[|h| - 1].model] else [])
  }

  /** The shortest prefix of `h` holding `k` text responses (all of `h` when
      it holds fewer): the transcript as it stood when turn `k` began. */
  function UpToText(h: seq<DebateEntry>, k: nat): seq<DebateEntry>
    decreases |h|
  {
    if h == [] || |TextModels(h[..|h| - 1])| < k then h else UpToText(h[..|h| - 1], k)
  }

  lemma TextModelsPush(h: seq<DebateEntry>, e: DebateEntry)
    ensures TextModels(h + [e]) == TextModels(h) + (if IsText(e) then [e.model] else [])
  {
    assert (h + [e])[..|h|] == h;
  }

  /** Search entries add no text response. */
  lemma {:induction false} TextModelsSearches(h: seq<DebateEntry>, s: seq<DebateEntry>)
    requires forall e :: e in s ==> IsSearch(e)
    ensures TextModels(h + s) == TextModels(h)
    decreases |s|
  {
    if s != [] {
      var init := s[..|s| - 1];
      assert h + s == (h + init) + [s[|s| - 1]];
      assert s[|s| - 1] in s;
      assert forall e :: e in init ==> e in s;
      TextModelsSearches(h, init);
      TextModelsPush(h + init, s[|s| - 1]);
    } else {
      assert h + s == h;
    }
  }

  /** Appending never moves the point at which turn `k` began, once the
      transcript already holds `k` answers. */
  lemma {:induction false} UpToTextExtend(h: seq<DebateEntry>, s: seq<DebateEntry>, k: nat)
    requires k <= |TextModels(h)|
    ensures UpToText(h + s, k) == UpToText(h, k)
    decreases |s|
  {
    if s != [] {
      var init := s[..|s| - 1];
      var hs := h + s;
      assert hs[..|hs| - 1] == h + init;
      UpToTextExtend(h, init, k);
      TextModelsMonotone(h, init);
    } else {
      assert h + s == h;
    }
  }

  /** Appending never removes or reorders an answer author: the old authors
      are a prefix of the new ones. */
  lemma {:induction false} TextModelsMonotone(h: seq<DebateEntry>, s: seq<DebateEntry>)
    ensures TextModels(h) <= TextModels(h + s)
    decreases |s|
  {
    if s != [] {
      var init := s[..|s| - 1];
      assert h + s == (h + init) + [s[|s| - 1]];
      TextModelsMonotone(h, init);
      TextModelsPush(h + init, s[|s| - 1]);
    } else {
      assert h + s == h;
    }
  }

  /** A transcript that ends with a text response is exactly the transcript
      as it stood after its last answer. */
  lemma UpToTextWhole(h: seq<DebateEntry>)
    requires h == [] || IsText(h[|h| - 1])
    ensures UpToText(h, |TextModels(h)|) == h
  {
    if h != [] {
      TextModelsPush(h[..|h| - 1], h[|h| - 1]);
      assert h[..|h| - 1] + [h[|h| - 1]] == h;
    }
  }

  /** Appending one turn (searches by `p`, then `p`'s answer) to a
      well-shaped transcript keeps it well-shaped and adds `p` to its
      answer authors. */
  lemma AppendTurn(h: seq<DebateEntry>, s: seq<DebateEntry>, p: Provider, text: string)
    requires WellShaped(h)
    requires forall e :: e in s ==> IsSearch(e) && EntryShaped(e) && e.model == p
    ensures WellShaped(h + s + [TextEntry(p, text)])
    ensures TextModels(h + s + [TextEntry(p, text)]) == TextModels(h) + [p]
  {
    var t := h + s + [TextEntry(p, text)];
    forall i | 0 <= i < |t| - 1 && IsSearch(t[i])
      ensures t[i + 1].model == t[i].model
    {
      if i < |h| - 1 {
        assert t[i] == h[i] && t[i + 1] == h[i + 1];
      } else if i == |h| - 1 {
        // h ends with an answer, so its last entry is no search
        assert false;
      } else {
        assert t[i] in s;
        if i + 1 < |h| + |s| {
          assert t[i + 1] in s;
        }
      }
    }
    forall i | 0 <= i < |t|
      ensures EntryShaped(t[i])
    {
      if |h| <= i < |h| + |s| { assert t[i] in s; }
    }
    TextModelsSearches(h, s);
    TextModelsPush(h + s, TextEntry(p, text));
  }

  /** In a well-shaped transcript every search belongs to a turn: it is
      followed by searches of the same provider and then by that provider's
      own text response. */
  lemma {:induction false} SearchBelongsToNextAnswer(h: seq<DebateEntry>, i: nat)
    requires WellShaped(h)
    requires i < |h| && IsSearch(h[i])
    ensures exists j :: i < j < |h| && IsText(h[j]) && h[j].model == h[i].model
                 && (forall l :: i <= l < j ==> IsSearch(h[l]) && h[l].model == h[i].model)
    decreases |h| - i
  {
    assert i < |h| - 1;
    assert EntryShaped(h[i + 1]);
    if IsText(h[i + 1]) {
      assert forall l :: i <= l < i + 1 ==> IsSearch(h[l]) && h[l].model == h[i].model;
    } else {
      SearchBelongsToNextAnswer(h, i + 1);
      var j :| i + 1 < j < |h| && IsText(h[j]) && h[j].model == h[i + 1].model
               && (forall l :: i + 1 <= l < j ==> IsSearch(h[l]) && h[l].model == h[i + 1].model);
      assert forall l :: i <= l < j ==> IsSearch(h[l]) && h[l].model == h[i].model;
    }
  }
}
