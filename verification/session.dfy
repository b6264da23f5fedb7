/** Per-host storage keys of the content script and the chat history it
    sends with each request.  `host` is `new URL(location.href).host`, or
    `None` when the URL does not parse. */
module Session {
  import opened Wrappers
  import opened Strings
  import opened Chat

  const Namespace := "n8n-ai-assistant"
  const GlobalHost := "global"

  /** The three kinds of per-host record. */
  datatype KeyKind = ChatKind | PendingKind | ForceKind

  function KindTag(k: KeyKind): string {
    match k
    case ChatKind => "chat"
    case PendingKind => "pending"
    case ForceKind => "force"
  }

  function KeyPrefix(k: KeyKind): string {
    Namespace + ":" + KindTag(k) + ":"
  }

  /** `getChatKey` / `getPendingKey`: an unparsable URL falls back to
      `global`; a parsed URL with an empty host keeps the empty host. */
  function StorageKey(k: KeyKind, host: Option<string>): (r: string)
    requires k != ForceKind
    ensures IsPrefix(KeyPrefix(k), r)
    ensures host.Some? ==> r[|KeyPrefix(k)|..] == host.value
    ensures host.None? ==> r[|KeyPrefix(k)|..] == GlobalHost
  {
    KeyPrefix(k) + host.GetOr(GlobalHost)
  }

  /** `getForceKey`: `getHost()` yields `null` on a parse error, and an empty
      host is falsy, so both fall back to `global`. */
  function ForceKey(host: Option<string>): (r: string)
    ensures IsPrefix(KeyPrefix(ForceKind), r)
    ensures host.Some? && host.value != "" ==> r[|KeyPrefix(ForceKind)|..] == host.value
    ensures host.None? || host.value == "" ==> r[|KeyPrefix(ForceKind)|..] == GlobalHost
  {
    KeyPrefix(ForceKind) + (if host.Some? && host.value != "" then host.value else GlobalHost)
  }

  function ChatKey(host: Option<string>): string { StorageKey(ChatKind, host) }

  function PendingKey(host: Option<string>): string { StorageKey(PendingKind, host) }

  /** Reads the host part back out of a key of the given kind. */
  function KeyHost(k: KeyKind, key: string): (r: Option<string>)
    ensures r.Some? <==> IsPrefix(KeyPrefix(k), key)
    ensures r.Some? ==> KeyPrefix(k) + r.value == key
  {
    if IsPrefix(KeyPrefix(k), key) then
      assert KeyPrefix(k) + key[|KeyPrefix(k)|..] == key;
      Some(key[|KeyPrefix(k)|..])
    else None
  }

  /** Two parsed hosts share a record exactly when they are equal. */
  lemma StorageKeyInjective(k: KeyKind, a: string, b: string)
    requires k != ForceKind
    ensures StorageKey(k, Some(a)) == StorageKey(k, Some(b)) <==> a == b
  {
    var p := KeyPrefix(k);
    if StorageKey(k, Some(a)) == StorageKey(k, Some(b)) {
      assert StorageKey(k, Some(a))[|p|..] == a;
      assert StorageKey(k, Some(b))[|p|..] == b;
    }
  }

  /** Reading the host back gives what the key was built from. */
  lemma StorageKeyRoundTrip(k: KeyKind, host: Option<string>)
    requires k != ForceKind
    ensures KeyHost(k, StorageKey(k, host)) == Some(host.GetOr(GlobalHost))
  {
    assert StorageKey(k, host)[..|KeyPrefix(k)|] == KeyPrefix(k);
  }

  /** The `global` fallback is indistinguishable from a host literally named
      `global`: an unparsable page and such a host share one record. */
  lemma GlobalFallbackSharesKey(k: KeyKind)
    requires k != ForceKind
    ensures StorageKey(k, None) == StorageKey(k, Some(GlobalHost))
  {
  }

  /** Chat histories, pending workflows and force flags never share a key. */
  lemma KindsNeverCollide(host1: Option<string>, host2: Option<string>)
    ensures ChatKey(host1) != PendingKey(host2)
    ensures ChatKey(host1) != ForceKey(host2)
    ensures PendingKey(host1) != ForceKey(host2)
  {
    var n := |Namespace| + 1;
    assert ChatKey(host1)[n] == 'c';
    assert PendingKey(host1)[n] == 'p';
    assert PendingKey(host2)[n] == 'p';
    assert ForceKey(host2)[n] == 'f';
  }

  /** An entry of the panel's message list (`state.messages`); `text` is
      `None` when it is not set. */
  datatype ChatMessage = ChatMessage(role: string, text: Option<string>)

  const HistoryWindow := 8

  function HistoryEntryOf(m: ChatMessage): HistoryEntry {
    HistoryEntry(m.role, Some(m.text.GetOr("")))
  }

  /** `buildHistory`: the last eight messages with their role and text. */
  function BuildHistory(ms: seq<ChatMessage>): (r: seq<HistoryEntry>)
    ensures |r| == if |ms| < HistoryWindow then |ms| else HistoryWindow
    ensures forall i :: 0 <= i < |r| ==>
      r[i].role == ms[|ms| - |r| + i].role && r[i].text == Some(ms[|ms| - |r| + i].text.GetOr(""))
  {
    var start := if |ms| < HistoryWindow then 0 else |ms| - HistoryWindow;
    var r := seq(|ms| - start, i requires 0 <= i < |ms| - start => HistoryEntryOf(ms[start + i]));
    assert forall i :: 0 <= i < |r| ==> r[i] == HistoryEntryOf(ms[start + i]);
    r
  }

  /** The window slides: once full, a new message pushes out the oldest. */
  lemma BuildHistorySlides(ms: seq<ChatMessage>, m: ChatMessage)
    requires |ms| >= HistoryWindow
    ensures BuildHistory(ms + [m]) == BuildHistory(ms)[1..] + [HistoryEntryOf(m)]
  {
    var a := BuildHistory(ms + [m]);
    var b := BuildHistory(ms)[1..] + [HistoryEntryOf(m)];
    assert |a| == |b|;
    forall i | 0 <= i < |a| ensures a[i] == b[i] {
      if i < |a| - 1 {
        assert (ms + [m])[|ms| + 1 - HistoryWindow + i] == ms[|ms| - HistoryWindow + i + 1];
      }
    }
  }

  /** Whatever the panel holds, a chat request carries at most ten messages:
      the system prompt, eight history turns and the new user turn. */
  lemma RequestSizeBounded(prompt: string, ms: seq<ChatMessage>, text: string, image: string, context: Option<string>)
    ensures |BuildMessages(prompt, Payload(text, image, context, BuildHistory(ms)))| <= HistoryWindow + 2
  {
    var p := Payload(text, image, context, BuildHistory(ms));
    var r := BuildMessages(prompt, p);
    assert r[1..|r| - 1] == HistoryMessages(p.history);
  }
}
