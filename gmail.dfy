/**
 * Message listing and extraction (app/services/gmail.py). The Gmail API is
 * not modelled: every answer it gives is an input. `None` stands for a call
 * that raised HttpError, `authOk` for the outcome of `authenticate`, `list`
 * for the messages.list answer per label id, and `decode` for base64
 * decoding followed by UTF-8 decoding that ignores errors.
 */
module Gmail {
  import opened Options
  import opened Strings

  datatype Label = Label(id: string, name: string)

  /** An entry of a messages.list answer. */
  datatype MessageRef = MessageRef(id: string, threadId: string)

  datatype Header = Header(name: string, value: string)

  /** A MIME part; a missing mimeType or body data is the empty string. */
  datatype Part = Part(mimeType: string, data: string)

  datatype Payload = Payload(headers: seq<Header>, parts: seq<Part>, data: string)

  /** The answer of messages.get with format 'full'. */
  datatype RawMessage = RawMessage(threadId: string, snippet: string, payload: Payload, internalDate: int, labelIds: seq<string>)

  /** The dictionary get_message_content returns; `date` is the internal date in milliseconds. */
  datatype Content = Content(
    id: string, threadId: string, snippet: string, subject: string, sender: string,
    body: string, date: Option<int>, labels: seq<string>)

  const SystemLabels: seq<string> := ["INBOX", "SENT", "SPAM", "TRASH", "DRAFT", "STARRED", "UNREAD", "IMPORTANT"]

  /** The body of a message is cut to this many characters. */
  const MaxBodyLength: nat := 4000

  // ---------------------------------------------------------------------------
  // The configured label list
  // ---------------------------------------------------------------------------

  /** The items the first `n` pieces give, each piece giving `f(piece)`, in order. */
  function Gather(f: string -> seq<string>, pieces: seq<string>, n: nat): seq<string>
    requires n <= |pieces|
  {
    if n == 0 then [] else Gather(f, pieces, n - 1) + f(pieces[n - 1])
  }

  /** `[p.strip() for p in pieces[:n] if p.strip()]` */
  function NonBlank(pieces: seq<string>, n: nat): (r: seq<string>)
    requires n <= |pieces|
    ensures |r| <= n
    ensures forall k :: 0 <= k < |r| ==> r[k] != ""
  {
    NonBlankShape(pieces, n);
    Gather(Kept, pieces, n)
  }

  lemma {:induction false} NonBlankShape(pieces: seq<string>, n: nat)
    requires n <= |pieces|
    ensures |Gather(Kept, pieces, n)| <= n
    ensures forall k :: 0 <= k < |Gather(Kept, pieces, n)| ==> Gather(Kept, pieces, n)[k] != ""
  {
    if n > 0 {
      NonBlankShape(pieces, n - 1);
      var before := Gather(Kept, pieces, n - 1);
      var kept := Kept(pieces[n - 1]);
      assert Gather(Kept, pieces, n) == before + kept;
      assert forall k :: 0 <= k < |before + kept| ==> (before + kept)[k] != "" by {
        forall k | 0 <= k < |before + kept| ensures (before + kept)[k] != "" {
          if k < |before| { assert (before + kept)[k] == before[k]; } else { assert (before + kept)[k] == kept[k - |before|]; }
        }
      }
    }
  }

  /** What one piece contributes: itself stripped, unless that is empty. */
  function Kept(piece: string): (r: seq<string>)
    ensures |r| <= 1
    ensures forall k :: 0 <= k < |r| ==> r[k] != ""
  {
    var item := Strip(piece);
    if item != "" then [item] else []
  }

  /** One more piece adds its stripped text when that is non-empty, and nothing otherwise. */
  lemma NonBlankStep(pieces: seq<string>, n: nat)
    requires 0 < n <= |pieces|
    ensures Strip(pieces[n - 1]) != "" ==> NonBlank(pieces, n) == NonBlank(pieces, n - 1) + [Strip(pieces[n - 1])]
    ensures Strip(pieces[n - 1]) == "" ==> NonBlank(pieces, n) == NonBlank(pieces, n - 1)
  {
    assert NonBlank(pieces, n - 1) + [] == NonBlank(pieces, n - 1);
  }

  lemma {:induction false} GatherHasPiece(f: string -> seq<string>, pieces: seq<string>, n: nat, x: string) returns (k: nat)
    requires n <= |pieces| && x in Gather(f, pieces, n)
    ensures k < n && x in f(pieces[k])
  {
    if x in Gather(f, pieces, n - 1) {
      k := GatherHasPiece(f, pieces, n - 1, x);
    } else {
      k := n - 1;
    }
  }

  lemma {:induction false} PieceInGather(f: string -> seq<string>, pieces: seq<string>, n: nat, k: nat, x: string)
    requires k < n <= |pieces| && x in f(pieces[k])
    ensures x in Gather(f, pieces, n)
  {
    if k < n - 1 {
      PieceInGather(f, pieces, n - 1, k, x);
    }
  }

  lemma KeptMembers(piece: string, x: string)
    ensures x in Kept(piece) <==> x != "" && Strip(piece) == x
  {
  }

  /** The names are exactly the non-empty stripped texts of the pieces. */
  lemma NonBlankMembers(pieces: seq<string>, n: nat, x: string)
    requires n <= |pieces|
    ensures x in NonBlank(pieces, n) <==> x != "" && exists k :: 0 <= k < n && Strip(pieces[k]) == x
  {
    if x in NonBlank(pieces, n) {
      var k := GatherHasPiece(Kept, pieces, n, x);
      KeptMembers(pieces[k], x);
    }
    if x != "" && exists k :: 0 <= k < n && Strip(pieces[k]) == x {
      var k :| 0 <= k < n && Strip(pieces[k]) == x;
      KeptMembers(pieces[k], x);
      PieceInGather(Kept, pieces, n, k, x);
    }
  }

  lemma KeptIsClean(piece: string, c: char)
    requires c !in piece
    ensures Clean(Kept(piece), c)
  {
    StripNoNewChars(piece, c);
  }

  lemma KeptTrimmed(piece: string)
    requires piece != "" && Trimmed(piece)
    ensures Kept(piece) == [piece]
  {
    StripTrimmed(piece);
  }

  /** The label names of a comma-separated setting such as "INBOX, Jobs". */
  function ParseLabelList(config: string): (names: seq<string>)
    ensures forall k :: 0 <= k < |names| ==> names[k] != "" && ',' !in names[k]
  {
    var pieces := Split(config, ',');
    NonBlankFrom(pieces, |pieces|);
    NonBlank(pieces, |pieces|)
  }

  /** Every item is free of `c` and of surrounding white space. */
  ghost predicate Clean(items: seq<string>, c: char)
  {
    forall k :: 0 <= k < |items| ==> c !in items[k] && Trimmed(items[k])
  }

  lemma {:induction false} NonBlankFrom(pieces: seq<string>, n: nat)
    requires n <= |pieces|
    requires forall k :: 0 <= k < |pieces| ==> ',' !in pieces[k]
    ensures Clean(NonBlank(pieces, n), ',')
  {
    if n > 0 {
      NonBlankFrom(pieces, n - 1);
      KeptIsClean(pieces[n - 1], ',');
      CleanAppend(NonBlank(pieces, n - 1), Kept(pieces[n - 1]), ',');
    }
  }

  lemma CleanAppend(a: seq<string>, b: seq<string>, c: char)
    requires Clean(a, c) && Clean(b, c)
    ensures Clean(a + b, c)
  {
    forall k | 0 <= k < |a + b|
      ensures c !in (a + b)[k] && Trimmed((a + b)[k])
    {
      if k < |a| { assert (a + b)[k] == a[k]; } else { assert (a + b)[k] == b[k - |a|]; }
    }
  }

  /** Each label name is non-empty, free of commas and free of surrounding white space. */
  lemma ParsedLabelsAreClean(config: string)
    ensures forall k :: 0 <= k < |ParseLabelList(config)| ==>
      ParseLabelList(config)[k] != "" && Trimmed(ParseLabelList(config)[k])
  {
    var pieces := Split(config, ',');
    NonBlankFrom(pieces, |pieces|);
  }

  /**
   * Joining clean names with commas and parsing the result gives the names
   * back: the parser keeps every such name, in order.
   */
  lemma {:induction false} LabelListRoundTrip(names: seq<string>)
    requires |names| >= 1
    requires forall k :: 0 <= k < |names| ==> names[k] != "" && ',' !in names[k] && Trimmed(names[k])
    ensures ParseLabelList(Join(names, ',')) == names
  {
    SplitJoin(names, ',');
    NonBlankKeeps(names, |names|);
    assert NonBlank(names, |names|) == names;
  }

  lemma {:induction false} NonBlankKeeps(names: seq<string>, n: nat)
    requires n <= |names|
    requires forall k :: 0 <= k < |names| ==> names[k] != "" && Trimmed(names[k])
    ensures |NonBlank(names, n)| == n
    ensures forall k :: 0 <= k < n ==> NonBlank(names, n)[k] == names[k]
  {
    if n > 0 {
      NonBlankKeeps(names, n - 1);
      KeptTrimmed(names[n - 1]);
    }
  }

  // ---------------------------------------------------------------------------
  // Label resolution
  // ---------------------------------------------------------------------------

  /** The index of the first label whose name equals `name` ignoring case. */
  function FirstNamed(labels: seq<Label>, name: string, n: nat): (r: Option<nat>)
    requires n <= |labels|
    ensures r.None? ==> forall k :: 0 <= k < n ==> Lower(labels[k].name) != Lower(name)
    ensures r.Some? ==> r.value < n && Lower(labels[r.value].name) == Lower(name)
    ensures r.Some? ==> forall k :: 0 <= k < r.value ==> Lower(labels[k].name) != Lower(name)
  {
    if n == 0 then None
    else
      match FirstNamed(labels, name, n - 1)
      case Some(k) => Some(k)
      case None => if Lower(labels[n - 1].name) == Lower(name) then Some(n - 1) else None
  }

  /**
   * The search of get_label_id: the id of the first label whose name equals
   * `name` case-insensitively, or nothing.
   */
  function FindLabelId(labels: seq<Label>, name: string): (r: Option<string>)
    ensures r.None? <==> forall k :: 0 <= k < |labels| ==> Lower(labels[k].name) != Lower(name)
    ensures r.Some? ==> (exists k :: 0 <= k < |labels| && labels[k].id == r.value
                          && Lower(labels[k].name) == Lower(name)
                          && forall j :: 0 <= j < k ==> Lower(labels[j].name) != Lower(name))
  {
    match FirstNamed(labels, name, |labels|)
    case Some(k) => Some(labels[k].id)
    case None => None
  }

  /** One of the eight system labels, named in any case. */
  predicate IsSystemLabel(name: string)
  {
    Upper(name) in SystemLabels
  }

  /**
   * The label id fetch_messages lists for a label name: a system label is
   * used as its upper-cased self; any other is looked up by name, and is
   * skipped (None) when not found or found with an empty id.
   */
  function Resolve(name: string, labels: seq<Label>): (r: Option<string>)
    ensures IsSystemLabel(name) ==> r == Some(Upper(name))
    ensures !IsSystemLabel(name) ==> (r.Some? <==> FindLabelId(labels, name).Some? && FindLabelId(labels, name).value != "")
    ensures !IsSystemLabel(name) && r.Some? ==> r == FindLabelId(labels, name)
  {
    if IsSystemLabel(name) then Some(Upper(name))
    else
      match FindLabelId(labels, name)
      case Some(id) => if id != "" then Some(id) else None
      case None => None
  }

  /** What one label contributes: its list answer, or nothing when it does not resolve or the call fails. */
  function Listed(name: string, labels: seq<Label>, list: string -> Option<seq<MessageRef>>): seq<MessageRef>
  {
    match Resolve(name, labels)
    case None => []
    case Some(id) =>
      match list(id)
      case None => []
      case Some(msgs) => msgs
  }

  /** The answers of the first `n` labels, one after the other. */
  function Gathered(names: seq<string>, labels: seq<Label>, list: string -> Option<seq<MessageRef>>, n: nat): seq<MessageRef>
    requires n <= |names|
  {
    if n == 0 then [] else Gathered(names, labels, list, n - 1) + Listed(names[n - 1], labels, list)
  }

  lemma GatheredStep(names: seq<string>, labels: seq<Label>, list: string -> Option<seq<MessageRef>>, n: nat)
    requires n < |names|
    ensures Gathered(names, labels, list, n + 1) == Gathered(names, labels, list, n) + Listed(names[n], labels, list)
  {
  }

  /** A message of the gathered answers comes from the answer of some label. */
  lemma {:induction false} GatheredFromSomeLabel(names: seq<string>, labels: seq<Label>, list: string -> Option<seq<MessageRef>>, n: nat, m: MessageRef)
    requires n <= |names| && m in Gathered(names, labels, list, n)
    ensures exists k :: (0 <= k < n && Resolve(names[k], labels).Some?
                         && list(Resolve(names[k], labels).value).Some?
                         && m in list(Resolve(names[k], labels).value).value)
  {
    var before := Gathered(names, labels, list, n - 1);
    if m in before {
      GatheredFromSomeLabel(names, labels, list, n - 1, m);
    } else {
      assert m in Listed(names[n - 1], labels, list);
    }
  }

  // ---------------------------------------------------------------------------
  // Cross-label de-duplication
  // ---------------------------------------------------------------------------

  function Ids(ms: seq<MessageRef>): set<string>
  {
    set m | m in ms :: m.id
  }

  /** The first index below `n` that holds a message with this id. */
  function IndexOfId(ms: seq<MessageRef>, id: string, n: nat): (r: Option<nat>)
    requires n <= |ms|
    ensures r.None? ==> forall i :: 0 <= i < n ==> ms[i].id != id
    ensures r.Some? ==> r.value < n && ms[r.value].id == id
    ensures r.Some? ==> forall i :: 0 <= i < r.value ==> ms[i].id != id
  {
    if n == 0 then None
    else
      match IndexOfId(ms, id, n - 1)
      case Some(j) => Some(j)
      case None => if ms[n - 1].id == id then Some(n - 1) else None
  }

  /**
   * The first `n` messages with every message whose id was already seen
   * dropped, in order (the `seen_ids` loop of fetch_messages).
   */
  function Dedup(ms: seq<MessageRef>, n: nat): seq<MessageRef>
    requires n <= |ms|
  {
    if n == 0 then []
    else
      var kept := Dedup(ms, n - 1);
      if ms[n - 1].id in Ids(kept) then kept else kept + [ms[n - 1]]
  }

  /** De-duplication only looks at the prefix it is given. */
  lemma {:induction false} DedupPrefix(xs: seq<MessageRef>, ys: seq<MessageRef>, n: nat)
    requires n <= |xs|
    ensures Dedup(xs + ys, n) == Dedup(xs, n)
  {
    if n > 0 {
      DedupPrefix(xs, ys, n - 1);
      assert (xs + ys)[n - 1] == xs[n - 1];
    }
  }

  /** No two kept messages share an id. */
  ghost predicate DistinctIds(r: seq<MessageRef>)
  {
    forall a, b :: 0 <= a < b < |r| ==> r[a].id != r[b].id
  }


  /** No two kept messages share an id. */
  lemma {:induction false} DedupDistinct(ms: seq<MessageRef>, n: nat)
    requires n <= |ms|
    ensures DistinctIds(Dedup(ms, n))
  {
    if n > 0 {
      DedupDistinct(ms, n - 1);
      var kept := Dedup(ms, n - 1);
      var m := ms[n - 1];
      if m.id !in Ids(kept) {
        var r := kept + [m];
        forall a, b | 0 <= a < b < |r|
          ensures r[a].id != r[b].id
        {
          if b == |kept| {
            assert kept[a] in kept;
          }
        }
      }
    }
  }

  /** Every id among the first `n` messages is kept, and nothing else is. */
  lemma {:induction false} DedupCovers(ms: seq<MessageRef>, n: nat)
    requires n <= |ms|
    ensures forall i :: 0 <= i < n ==> ms[i].id in Ids(Dedup(ms, n))
    ensures forall k :: 0 <= k < |Dedup(ms, n)| ==> Dedup(ms, n)[k] in ms[..n]
  {
    if n > 0 {
      DedupCovers(ms, n - 1);
      var kept := Dedup(ms, n - 1);
      var m := ms[n - 1];
      assert ms[..n] == ms[..n - 1] + [m];
      if m.id !in Ids(kept) {
        IdsSnoc(kept, m);
      }
    }
  }

  /** A message whose id Dedup has not kept yet is the first with that id. */
  lemma NewIdFirstAt(ms: seq<MessageRef>, n: nat)
    requires 0 < n <= |ms| && ms[n - 1].id !in Ids(Dedup(ms, n - 1))
    ensures IndexOfId(ms, ms[n - 1].id, n) == Some(n - 1)
  {
    DedupCovers(ms, n - 1);
  }

  /** Every kept message is the first message with its id. */
  lemma {:induction false} DedupKeepsFirst(ms: seq<MessageRef>, n: nat)
    requires n <= |ms|
    ensures forall k :: 0 <= k < |Dedup(ms, n)| ==>
      IndexOfId(ms, Dedup(ms, n)[k].id, n).Some?
      && Dedup(ms, n)[k] == ms[IndexOfId(ms, Dedup(ms, n)[k].id, n).value]
  {
    if n > 0 {
      DedupKeepsFirst(ms, n - 1);
      var kept := Dedup(ms, n - 1);
      var m := ms[n - 1];
      if m.id !in Ids(kept) {
        NewIdFirstAt(ms, n);
        var r := kept + [m];
        forall k | 0 <= k < |r|
          ensures IndexOfId(ms, r[k].id, n).Some? && r[k] == ms[IndexOfId(ms, r[k].id, n).value]
        {
          if k < |kept| {
            assert r[k] == kept[k];
          }
        }
      }
    }
  }

  /** Kept messages are in the order of their first occurrences. */
  lemma {:induction false} DedupKeepsOrder(ms: seq<MessageRef>, n: nat)
    requires n <= |ms|
    ensures forall a, b :: 0 <= a < b < |Dedup(ms, n)| ==>
      IndexOfId(ms, Dedup(ms, n)[a].id, n).Some? && IndexOfId(ms, Dedup(ms, n)[b].id, n).Some?
      && IndexOfId(ms, Dedup(ms, n)[a].id, n).value < IndexOfId(ms, Dedup(ms, n)[b].id, n).value
  {
    DedupKeepsFirst(ms, n);
    if n > 0 {
      DedupKeepsOrder(ms, n - 1);
      DedupKeepsFirst(ms, n - 1);
      var kept := Dedup(ms, n - 1);
      var m := ms[n - 1];
      if m.id !in Ids(kept) {
        var r := kept + [m];
        forall a, b | 0 <= a < b < |r|
          ensures IndexOfId(ms, r[a].id, n).value < IndexOfId(ms, r[b].id, n).value
        {
          assert r[a] == kept[a];
          if b < |kept| {
            assert r[b] == kept[b];
          } else {
            NewIdFirstAt(ms, n);
            assert r[b] == m;
          }
        }
      }
    }
  }

  /**
   * What fetch_messages promises of its de-duplication: ids are distinct,
   * every kept message is the FIRST occurrence of its id, every id of the
   * input is kept, nothing outside the input appears, and kept messages are
   * in the order of their first occurrences.
   */
  lemma DedupKeepsFirstOccurrences(ms: seq<MessageRef>)
    ensures var r := Dedup(ms, |ms|);
      DistinctIds(r)
      && (forall k :: 0 <= k < |r| ==> r[k] in ms)
      && (forall i :: 0 <= i < |ms| ==> ms[i].id in Ids(r))
      && (forall k :: 0 <= k < |r| ==>
            IndexOfId(ms, r[k].id, |ms|).Some? && r[k] == ms[IndexOfId(ms, r[k].id, |ms|).value])
      && (forall a, b :: 0 <= a < b < |r| ==>
            IndexOfId(ms, r[a].id, |ms|).value < IndexOfId(ms, r[b].id, |ms|).value)
  {
    DedupDistinct(ms, |ms|);
    DedupCovers(ms, |ms|);
    assert ms[..|ms|] == ms;
    DedupKeepsFirst(ms, |ms|);
    DedupKeepsOrder(ms, |ms|);
  }

  lemma IdsSnoc(ms: seq<MessageRef>, m: MessageRef)
    ensures Ids(ms + [m]) == Ids(ms) + {m.id}
  {
    assert forall x :: x in ms + [m] <==> x in ms || x == m;
  }

  // ---------------------------------------------------------------------------
  // Header and body extraction
  // ---------------------------------------------------------------------------

  /** The index of the first header whose lower-cased name is `name`. */
  function FirstHeader(headers: seq<Header>, name: string, n: nat): (r: Option<nat>)
    requires n <= |headers|
    ensures r.None? ==> forall k :: 0 <= k < n ==> Lower(headers[k].name) != name
    ensures r.Some? ==> r.value < n && Lower(headers[r.value].name) == name
    ensures r.Some? ==> forall k :: 0 <= k < r.value ==> Lower(headers[k].name) != name
  {
    if n == 0 then None
    else
      match FirstHeader(headers, name, n - 1)
      case Some(k) => Some(k)
      case None => if Lower(headers[n - 1].name) == name then Some(n - 1) else None
  }

  /**
   * `next((h['value'] for h in headers if h['name'].lower() == name), '')`:
   * the value of the first header with that lower-cased name, else "".
   */
  function HeaderValue(headers: seq<Header>, name: string): (v: string)
    ensures (forall k :: 0 <= k < |headers| ==> Lower(headers[k].name) != name) ==> v == ""
    ensures forall k :: (0 <= k < |headers| && Lower(headers[k].name) == name
                         && (forall j :: 0 <= j < k ==> Lower(headers[j].name) != name)) ==> v == headers[k].value
  {
    match FirstHeader(headers, name, |headers|)
    case Some(k) => headers[k].value
    case None => ""
  }

  /** A part whose text the body collects: text/plain with data. */
  predicate IsTextPart(p: Part)
  {
    p.mimeType == "text/plain" && p.data != ""
  }

  /** The decoded text/plain parts among the first `n`, concatenated in order. */
  function PlainText(parts: seq<Part>, decode: string -> string, n: nat): string
    requires n <= |parts|
  {
    if n == 0 then ""
    else PlainText(parts, decode, n - 1) + if IsTextPart(parts[n - 1]) then decode(parts[n - 1].data) else ""
  }

  /**
   * Only text/plain parts with data matter: two part lists that agree on
   * which parts those are, and on their data, give the same text.
   */
  lemma {:induction false} PlainTextIgnoresOtherParts(p: seq<Part>, q: seq<Part>, decode: string -> string, n: nat)
    requires n <= |p| && n <= |q|
    requires forall k :: 0 <= k < n ==> (IsTextPart(p[k]) <==> IsTextPart(q[k]))
    requires forall k :: 0 <= k < n && IsTextPart(p[k]) ==> p[k].data == q[k].data
    ensures PlainText(p, decode, n) == PlainText(q, decode, n)
  {
    if n > 0 {
      PlainTextIgnoresOtherParts(p, q, decode, n - 1);
    }
  }

  /** With no text/plain part carrying data, the text is empty. */
  lemma {:induction false} NoTextPartNoText(parts: seq<Part>, decode: string -> string, n: nat)
    requires n <= |parts|
    requires forall k :: 0 <= k < n ==> !IsTextPart(parts[k])
    ensures PlainText(parts, decode, n) == ""
  {
    if n > 0 {
      NoTextPartNoText(parts, decode, n - 1);
    }
  }

  /**
   * `_extract_body`: with parts, their plain text (other parts ignored, no
   * fall-back to the top-level data); without parts, the decoded top-level
   * data when there is any.
   */
  function BodyText(payload: Payload, decode: string -> string): string
  {
    if |payload.parts| > 0 then PlainText(payload.parts, decode, |payload.parts|)
    else if payload.data != "" then decode(payload.data)
    else ""
  }

  /** A message with parts never falls back to its top-level data. */
  lemma PartsShadowData(payload: Payload, decode: string -> string, data: string)
    requires |payload.parts| > 0
    ensures BodyText(payload.(data := data), decode) == BodyText(payload, decode)
  {
  }

  /** One more part adds its decoded data exactly when it is a text/plain part with data. */
  lemma PlainTextStep(parts: seq<Part>, decode: string -> string, n: nat)
    requires 0 < n <= |parts|
    ensures IsTextPart(parts[n - 1]) ==>
      PlainText(parts, decode, n) == PlainText(parts, decode, n - 1) + decode(parts[n - 1].data)
    ensures !IsTextPart(parts[n - 1]) ==> PlainText(parts, decode, n) == PlainText(parts, decode, n - 1)
  {
  }

  /**
   * The text/plain parts are concatenated in order: the body of the first
   * `m` parts is a prefix of the body of the first `n`.
   */
  lemma {:induction false} PlainTextGrows(parts: seq<Part>, decode: string -> string, m: nat, n: nat)
    requires m <= n <= |parts|
    ensures PlainText(parts, decode, m) <= PlainText(parts, decode, n)
  {
    if m < n {
      PlainTextGrows(parts, decode, m, n - 1);
    }
  }

  /** A single text/plain part with data is the whole body. */
  lemma SingleTextPart(headers: seq<Header>, part: Part, data: string, decode: string -> string)
    requires IsTextPart(part)
    ensures BodyText(Payload(headers, [part], data), decode) == decode(part.data)
  {
    assert PlainText([part], decode, 0) == "";
  }

  /** `internalDate` in milliseconds: absent when zero. */
  function DateOf(internalDate: int): Option<int>
  {
    if internalDate != 0 then Some(internalDate) else None
  }

  /**
   * What get_message_content gives on an authenticated service: nothing
   * when the call fails, else the message's fields with the body cut to
   * 4000 characters.
   */
  function ContentOf(id: string, fetched: Option<RawMessage>, decode: string -> string): (r: Option<Content>)
    ensures r.Some? <==> fetched.Some?
    ensures r.Some? ==> |r.value.body| <= MaxBodyLength && r.value.id == id
  {
    match fetched
    case None => None
    case Some(msg) =>
      Some(Content(id, msg.threadId, msg.snippet, HeaderValue(msg.payload.headers, "subject"),
                   HeaderValue(msg.payload.headers, "from"), Take(BodyText(msg.payload, decode), MaxBodyLength),
                   DateOf(msg.internalDate), msg.labelIds))
  }

  // ---------------------------------------------------------------------------
  // The service object
  // ---------------------------------------------------------------------------

  /** The labels every get_labels call of one fetch_messages run sees. */
  function EffectiveLabels(cache: seq<Label>, response: Option<seq<Label>>): seq<Label>
  {
    if |cache| > 0 then cache
    else
      match response
      case Some(ls) => ls
      case None => []
  }

  /** The first `n` names include one that is not a system label. */
  predicate AnyCustom(names: seq<string>, n: nat)
    requires n <= |names|
  {
    n > 0 && (AnyCustom(names, n - 1) || !IsSystemLabel(names[n - 1]))
  }

  /** The label cache after fetch_messages has looked at the first `n` names. */
  function CacheAfter(cache: seq<Label>, response: Option<seq<Label>>, names: seq<string>, n: nat): seq<Label>
    requires n <= |names|
  {
    if |cache| == 0 && response.Some? && AnyCustom(names, n) then response.value else cache
  }

  lemma CacheAfterShape(cache: seq<Label>, response: Option<seq<Label>>, names: seq<string>, n: nat)
    requires n <= |names|
    ensures var c := CacheAfter(cache, response, names, n);
      c == cache || (|cache| == 0 && response.Some? && c == response.value)
  {
  }

  /** The cache after fetch_messages has looked at one more name. */
  function CacheAfterName(cache: seq<Label>, initial: seq<Label>, response: Option<seq<Label>>, name: string): seq<Label>
  {
    if IsSystemLabel(name) then cache else CacheAfterLookup(initial, response)
  }

  lemma CacheAfterStep(initial: seq<Label>, response: Option<seq<Label>>, names: seq<string>, n: nat)
    requires n < |names|
    ensures CacheAfter(initial, response, names, n + 1)
         == CacheAfterName(CacheAfter(initial, response, names, n), initial, response, names[n])
  {
  }

  /** The messages of all labels, each id once, first occurrence kept. */
  function Fetched(names: seq<string>, labels: seq<Label>, list: string -> Option<seq<MessageRef>>): (r: seq<MessageRef>)
    ensures DistinctIds(r)
    ensures forall m :: m in Gathered(names, labels, list, |names|) ==> m.id in Ids(r)
  {
    var all := Gathered(names, labels, list, |names|);
    DedupDistinct(all, |all|);
    DedupCovers(all, |all|);
    Dedup(all, |all|)
  }

  /** Every fetched message is in the answer of some label that resolved and listed. */
  lemma FetchedFromSomeLabel(names: seq<string>, labels: seq<Label>, list: string -> Option<seq<MessageRef>>, m: MessageRef)
    requires m in Fetched(names, labels, list)
    ensures exists k :: (0 <= k < |names| && Resolve(names[k], labels).Some?
                         && list(Resolve(names[k], labels).value).Some?
                         && m in list(Resolve(names[k], labels).value).value)
  {
    var all := Gathered(names, labels, list, |names|);
    DedupCovers(all, |all|);
    assert all[..|all|] == all;
    var r := Dedup(all, |all|);
    var k :| 0 <= k < |r| && r[k] == m;
    GatheredFromSomeLabel(names, labels, list, |names|, m);
  }

  /** A label whose listing fails adds nothing, and the labels after it are still listed. */
  lemma FailedListingAddsNothing(names: seq<string>, labels: seq<Label>, list: string -> Option<seq<MessageRef>>, n: nat)
    requires n < |names|
    requires Resolve(names[n], labels).Some? && list(Resolve(names[n], labels).value).None?
    ensures Gathered(names, labels, list, n + 1) == Gathered(names, labels, list, n)
  {
  }

  /** The names fetch_messages scans: the given ones, else the configured list. */
  function NamesToScan(labels: Option<seq<string>>, config: string): seq<string>
  {
    match labels
    case Some(names) => names
    case None => ParseLabelList(config)
  }

  /** `kept` and `seen` are what the de-duplication has made of `gathered`. */
  ghost predicate Progress(kept: seq<MessageRef>, seen: set<string>, gathered: seq<MessageRef>)
  {
    kept == Dedup(gathered, |gathered|) && seen == Ids(kept)
  }

  /** The cache after one lookup by name that found nothing cached. */
  function CacheAfterLookup(initial: seq<Label>, response: Option<seq<Label>>): seq<Label>
  {
    if |initial| == 0 && response.Some? then response.value else initial
  }

  /**
   * The inner loop of fetch_messages: appends each message of one label's
   * answer whose id has not been seen, and records the id.
   */
  method AddUnseen(kept: seq<MessageRef>, seen: set<string>, ghost before: seq<MessageRef>, messages: seq<MessageRef>)
    returns (kept': seq<MessageRef>, seen': set<string>)
    requires kept == Dedup(before, |before|) && seen == Ids(kept)
    ensures kept' == Dedup(before + messages, |before + messages|)
    ensures seen' == Ids(kept')
  {
    kept', seen' := kept, seen;
    DedupPrefix(before, messages, |before|);
    var j := 0;
    while j < |messages|
      invariant 0 <= j <= |messages|
      invariant kept' == Dedup(before + messages, |before| + j)
      invariant seen' == Ids(kept')
    {
      var msg := messages[j];
      assert (before + messages)[|before| + j] == msg;
      if msg.id !in seen' {
        seen' := seen' + {msg.id};
        IdsSnoc(kept', msg);
        kept' := kept' + [msg];
      }
      j := j + 1;
    }
  }

  class GmailService {
    /** Whether `self.service` has been built. */
    var authenticated: bool
    /** `_labels_cache`; the empty list and None are both "nothing cached". */
    var labelsCache: seq<Label>

    constructor()
      ensures !authenticated && labelsCache == []
    {
      authenticated := false;
      labelsCache := [];
    }

    /** `authenticate`, whose outcome `ok` is an input; success builds the service. */
    method Authenticate(ok: bool) returns (r: bool)
      modifies this
      ensures r == ok
      ensures authenticated == (old(authenticated) || ok)
      ensures labelsCache == old(labelsCache)
    {
      if ok {
        authenticated := true;
      }
      r := ok;
    }

    /**
     * `get_labels`: a non-empty cache is returned as it is; otherwise the
     * labels are listed (after authenticating if needed) and what comes back
     * becomes the cache, so an empty answer leaves nothing cached.
     */
    method GetLabels(authOk: bool, response: Option<seq<Label>>) returns (r: seq<Label>)
      modifies this
      ensures |old(labelsCache)| > 0 ==>
        r == old(labelsCache) && labelsCache == old(labelsCache) && authenticated == old(authenticated)
      ensures |old(labelsCache)| == 0 ==> authenticated == (old(authenticated) || authOk)
      ensures |old(labelsCache)| == 0 ==>
        r == (if authenticated && response.Some? then response.value else []) && labelsCache == r
    {
      if |labelsCache| > 0 {
        return labelsCache;
      }
      if !authenticated {
        var ok := Authenticate(authOk);
        if !ok {
          return [];
        }
      }
      match response {
        case None =>
          return [];
        case Some(ls) =>
          labelsCache := ls;
          return labelsCache;
      }
    }

    /** `get_label_id`: the id of the first label named `name`, ignoring case. */
    method GetLabelId(name: string, authOk: bool, response: Option<seq<Label>>) returns (r: Option<string>)
      modifies this
      ensures |old(labelsCache)| > 0 ==>
        r == FindLabelId(old(labelsCache), name) && labelsCache == old(labelsCache) && authenticated == old(authenticated)
      ensures |old(labelsCache)| == 0 ==> authenticated == (old(authenticated) || authOk)
      ensures |old(labelsCache)| == 0 ==> labelsCache == (if authenticated && response.Some? then response.value else [])
      ensures |old(labelsCache)| == 0 ==> r == FindLabelId(labelsCache, name)
    {
      var labels := GetLabels(authOk, response);
      r := FindLabelId(labels, name);
    }

    /**
     * The label id fetch_messages lists for `name`: a system label needs no
     * lookup; any other goes through get_label_id, and an unknown name or an
     * empty id skips the label.
     */
    method ResolveLabel(name: string, authOk: bool, response: Option<seq<Label>>, ghost initial: seq<Label>)
      returns (labelId: Option<string>)
      requires authenticated
      requires labelsCache == initial || (|initial| == 0 && response.Some? && labelsCache == response.value)
      modifies this
      ensures authenticated
      ensures labelId == Resolve(name, EffectiveLabels(initial, response))
      ensures IsSystemLabel(name) ==> labelsCache == old(labelsCache)
      ensures !IsSystemLabel(name) ==> labelsCache == CacheAfterLookup(initial, response)
    {
      labelId := None;
      if Upper(name) in SystemLabels {
        labelId := Some(Upper(name));
      } else {
        var found := GetLabelId(name, authOk, response);
        if found.Some? && found.value != "" {
          labelId := found;
        }
      }
    }

    /**
     * One label of fetch_messages: resolve it, list it, and add the messages
     * whose ids are new; a label that does not resolve or whose listing
     * fails adds nothing.
     */
    method ScanLabel(
      name: string, authOk: bool, response: Option<seq<Label>>, list: string -> Option<seq<MessageRef>>,
      kept: seq<MessageRef>, seen: set<string>, ghost initial: seq<Label>, ghost before: seq<MessageRef>)
      returns (kept': seq<MessageRef>, seen': set<string>)
      requires authenticated
      requires labelsCache == initial || (|initial| == 0 && response.Some? && labelsCache == response.value)
      requires Progress(kept, seen, before)
      modifies this
      ensures authenticated
      ensures Progress(kept', seen', before + Listed(name, EffectiveLabels(initial, response), list))
      ensures labelsCache == CacheAfterName(old(labelsCache), initial, response, name)
    {
      ghost var after := before + Listed(name, EffectiveLabels(initial, response), list);
      var labelId := ResolveLabel(name, authOk, response, initial);
      kept', seen' := kept, seen;
      if labelId.Some? {
        var answer := list(labelId.value);
        if answer.Some? {
          assert after == before + answer.value;
          kept', seen' := AddUnseen(kept, seen, before, answer.value);
        } else {
          assert after == before;
        }
      } else {
        assert after == before;
      }
    }

    /**
     * `fetch_messages`: authenticates if needed (nothing is returned when
     * that fails), then lists every label in turn and keeps the first
     * message of each id, in label-then-answer order.
     */
    method FetchMessages(
      labels: Option<seq<string>>, config: string, authOk: bool,
      labelsResponse: Option<seq<Label>>, list: string -> Option<seq<MessageRef>>)
      returns (r: seq<MessageRef>)
      modifies this
      ensures !old(authenticated) && !authOk ==>
        r == [] && !authenticated && labelsCache == old(labelsCache)
      ensures old(authenticated) || authOk ==> authenticated
      ensures old(authenticated) || authOk ==>
        r == Fetched(NamesToScan(labels, config), EffectiveLabels(old(labelsCache), labelsResponse), list)
      ensures old(authenticated) || authOk ==>
        labelsCache == CacheAfter(old(labelsCache), labelsResponse, NamesToScan(labels, config), |NamesToScan(labels, config)|)
    {
      if !authenticated {
        var ok := Authenticate(authOk);
        if !ok {
          return [];
        }
      }
      var names := if labels.Some? then labels.value else ParseLabelList(config);
      r := ScanLabels(names, authOk, labelsResponse, list);
    }

    /** The label loop of fetch_messages, over an authenticated service. */
    method ScanLabels(names: seq<string>, authOk: bool, labelsResponse: Option<seq<Label>>, list: string -> Option<seq<MessageRef>>)
      returns (r: seq<MessageRef>)
      requires authenticated
      modifies this
      ensures authenticated
      ensures r == Fetched(names, EffectiveLabels(old(labelsCache), labelsResponse), list)
      ensures labelsCache == CacheAfter(old(labelsCache), labelsResponse, names, |names|)
    {
      ghost var initial := old(labelsCache);
      ghost var effective := EffectiveLabels(initial, labelsResponse);
      var allMessages: seq<MessageRef> := [];
      var seenIds: set<string> := {};
      var i := 0;
      ghost var gathered: seq<MessageRef> := [];
      while i < |names|
        invariant 0 <= i <= |names|
        invariant authenticated
        invariant labelsCache == CacheAfter(initial, labelsResponse, names, i)
        invariant gathered == Gathered(names, effective, list, i)
        invariant Progress(allMessages, seenIds, gathered)
      {
        var name := names[i];
        ghost var after := gathered + Listed(name, effective, list);
        CacheAfterShape(initial, labelsResponse, names, i);
        allMessages, seenIds := ScanLabel(name, authOk, labelsResponse, list, allMessages, seenIds, initial, gathered);
        GatheredStep(names, effective, list, i);
        gathered := after;
        CacheAfterStep(initial, labelsResponse, names, i);
        i := i + 1;
      }
      r := allMessages;
      assert r == Fetched(names, effective, list);
    }

    /**
     * `get_message_content`: nothing without a service or when the call
     * fails; otherwise the first Subject and From headers (or ""), the body
     * cut to 4000 characters, the thread id, snippet, date and labels.
     */
    method GetMessageContent(id: string, fetched: Option<RawMessage>, decode: string -> string) returns (r: Option<Content>)
      ensures !authenticated || fetched.None? ==> r.None?
      ensures authenticated ==> r == ContentOf(id, fetched, decode)
      ensures r.Some? ==> var msg := fetched.value;
        r.value.subject == HeaderValue(msg.payload.headers, "subject")
        && r.value.sender == HeaderValue(msg.payload.headers, "from")
        && |r.value.body| <= MaxBodyLength
        && r.value.body == Take(BodyText(msg.payload, decode), MaxBodyLength)
        && r.value == Content(id, msg.threadId, msg.snippet, r.value.subject, r.value.sender,
                              r.value.body, DateOf(msg.internalDate), msg.labelIds)
    {
      if !authenticated {
        return None;
      }
      match fetched {
        case None =>
          return None;
        case Some(msg) =>
          var headers := msg.payload.headers;
          var subject := HeaderValue(headers, "subject");
          var sender := HeaderValue(headers, "from");
          var body := ExtractBody(msg.payload, decode);
          var date := if msg.internalDate != 0 then Some(msg.internalDate) else None;
          r := Some(Content(id, msg.threadId, msg.snippet, subject, sender,
                            Take(body, MaxBodyLength), date, msg.labelIds));
      }
    }

    /** `_extract_body`, accumulating the text/plain parts with `+=`. */
    method ExtractBody(payload: Payload, decode: string -> string) returns (body: string)
      ensures body == BodyText(payload, decode)
    {
      var parts := payload.parts;
      body := "";
      if |parts| > 0 {
        var i := 0;
        while i < |parts|
          invariant 0 <= i <= |parts|
          invariant body == PlainText(parts, decode, i)
        {
          if parts[i].mimeType == "text/plain" {
            var data := parts[i].data;
            if data != "" {
              body := body + decode(data);
            }
          }
          i := i + 1;
        }
      } else {
        var data := payload.data;
        if data != "" {
          body := decode(data);
        }
      }
    }
  }
}
