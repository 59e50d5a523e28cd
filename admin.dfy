/** The teacher's dashboard: a password gate, the list of stored conversations kept fresh
    by the storage subscription, deletion, and the plain-text transcript export. */
module Admin {
  import opened Types
  import Text
  import Storage

  const Password := "admin"
  const WrongPasswordAlert := "Nesprávné heslo. (Nápověda: admin)"

  const DuoLabel := "PÁROVÁ VÝUKA (Dva žáci)"
  const AiLabel := "SIMULACE S AI"
  const NoEmail := "Neuveden"
  const NoClass := "Neuvedena"
  const Title := "SIMUCHAT - ZÁZNAM KONVERZACE"
  const Rule := "----------------------------------------"
  const ChatHeading := "\nPRŮBĚH CHATU:\n"
  const ImageContent := "[Obrázek]"
  const AudioContent := "[Hlasová zpráva]"
  const ByteOrderMark := "\U{FEFF}"

  /** The export's mode line names pair work only for DUO conversations. */
  function ModeLabel(mode: Option<GameMode>): (r: string)
    ensures r == DuoLabel <==> mode == Some(DUO)
    ensures r == AiLabel <==> mode != Some(DUO)
  {
    if mode == Some(DUO) then DuoLabel else AiLabel
  }

  /** `value || fallback`. */
  function OrDefault(value: string, fallback: string): (r: string)
    ensures value != "" ==> r == value
    ensures value == "" ==> r == fallback
  {
    if value != "" then value else fallback
  }

  /** The eleven header lines; `dateText` is the locale rendering of `lastActive`. */
  function HeaderLines(s: ChatSession, dateText: string): (r: seq<string>)
    ensures |r| == 11
  {
    [ Title,
      Rule,
      "Režim: " + ModeLabel(s.mode),
      "Žák 1 (Přihlášen): " + s.studentName,
      "E-mail: " + OrDefault(s.studentEmail, NoEmail),
      "Třída: " + OrDefault(s.studentClass, NoClass),
      "Téma: " + s.topic,
      "Role: " + s.roleUser + " (Žák 1) vs " + s.rolePartner + " (" + (if s.mode == Some(DUO) then "Žák 2" else "AI") + ")",
      "Datum: " + dateText,
      Rule,
      ChatHeading ]
  }

  /** Who a transcript line is credited to. */
  function SenderLabel(s: ChatSession, isUser: bool): (r: string)
    ensures isUser ==> r == s.studentName
    ensures !isUser && s.mode == Some(DUO) ==> r == s.rolePartner
    ensures !isUser && s.mode != Some(DUO) ==> r == "AI (" + s.rolePartner + ")"
  {
    if isUser then s.studentName
    else if s.mode == Some(DUO) then s.rolePartner
    else "AI (" + s.rolePartner + ")"
  }

  /** What a transcript line shows: a marker for an attachment, the text otherwise. */
  function ContentLabel(m: Message): (r: string)
    ensures m.attachmentType == Some(Image) ==> r == ImageContent
    ensures m.attachmentType == Some(Audio) ==> r == AudioContent
    ensures m.attachmentType.None? ==> r == m.text
  {
    match m.attachmentType
    case Some(Image) => ImageContent
    case Some(Audio) => AudioContent
    case None => m.text
  }

  function MessageLine(s: ChatSession, m: Message, localeTime: int -> string): string {
    "[" + localeTime(m.timestamp) + "] " + SenderLabel(s, m.isUser) + ": " + ContentLabel(m)
  }

  /** One line per message, in message order. */
  function MessageLines(s: ChatSession, ms: seq<Message>, localeTime: int -> string): (r: seq<string>)
    ensures |r| == |ms| && forall i :: 0 <= i < |ms| ==> r[i] == MessageLine(s, ms[i], localeTime)
  {
    seq(|ms|, i requires 0 <= i < |ms| => MessageLine(s, ms[i], localeTime))
  }

  /** `slice(0, 10)` of the ISO time: the date. */
  function FirstTen(iso: string): (r: string)
    ensures |r| == if |iso| < 10 then |iso| else 10
    ensures r == iso[..|r|]
  {
    if |iso| < 10 then iso else iso[..10]
  }

  /** The download's file name: each run of white space in the student's name becomes one
      underscore. */
  function FileName(studentName: string, isoNow: string): string {
    "simuchat_" + Text.ReplaceSpaceRuns(studentName, "_") + "_" + FirstTen(isoNow) + ".txt"
  }

  /** The name part of the file name holds no white space, and a name without white
      space is kept as it is. */
  lemma FileNameHasNoSpace(studentName: string)
    ensures Text.NoSpace(Text.ReplaceSpaceRuns(studentName, "_"))
    ensures Text.NoSpace(studentName) ==> Text.ReplaceSpaceRuns(studentName, "_") == studentName
  {
    Text.CollapseRemovesSpace(studentName, "_", false);
    if Text.NoSpace(studentName) {
      Text.CollapseKeepsPlainText(studentName, "_", false);
    }
  }

  /** A file to save: its name, its lines, and its content (the lines joined by newlines
      after a byte-order mark). */
  datatype Download = Download(fileName: string, lines: seq<string>, content: string)

  /** The selection after a refresh: the entry with the selected id, if the data has one. */
  function Refreshed(selected: Option<ChatSession>, data: seq<ChatSession>): (r: Option<ChatSession>)
    ensures selected.None? ==> r.None?
    ensures selected.Some? ==> r.Some? && r.value.id == selected.value.id
    ensures selected.Some? && (exists j :: 0 <= j < |data| && data[j].id == selected.value.id) ==> r.value in data
    ensures selected.Some? && (forall j :: 0 <= j < |data| ==> data[j].id != selected.value.id) ==> r == selected
  {
    if selected.None? then None
    else
      var i := Storage.IndexOfId(data, selected.value.id);
      if i >= 0 then Some(data[i]) else selected
  }

  /** `selectedSession?.id`. */
  function SelectedId(sel: Option<ChatSession>): Option<string> {
    if sel.Some? then Some(sel.value.id) else None
  }

  class AdminDashboard {
    const store: Storage.Backend
    var isAuthenticated: bool
    var password: string
    var sessions: seq<ChatSession>
    var selected: Option<ChatSession>
    var loading: bool
    var alerts: seq<string>

    constructor (store: Storage.Backend)
      ensures this.store == store
      ensures !isAuthenticated && password == "" && sessions == [] && selected.None? && !loading && alerts == []
    {
      this.store := store;
      isAuthenticated, password, sessions, selected, loading, alerts := false, "", [], None, false, [];
    }

    method SetPassword(p: string)
      modifies this`password
      ensures password == p
    {
      password := p;
    }

    /** `handleLogin`: the right password opens the dashboard, which starts loading;
        anything else is refused with a hint. */
    method HandleLogin()
      modifies this`isAuthenticated, this`loading, this`alerts
      ensures old(password) == Password ==> isAuthenticated && loading && alerts == old(alerts)
      ensures old(password) != Password ==>
        isAuthenticated == old(isAuthenticated) && loading == old(loading) && alerts == old(alerts) + [WrongPasswordAlert]
    {
      if password == Password {
        isAuthenticated := true;
        loading := true;
      } else {
        alerts := alerts + [WrongPasswordAlert];
      }
    }

    /** The subscription callback: the list is replaced and the selection refreshed. */
    method DeliverSessions(data: seq<ChatSession>)
      modifies this`sessions, this`loading, this`selected
      ensures sessions == data && !loading
      ensures selected == Refreshed(old(selected), data)
    {
      sessions := data;
      loading := false;
      if selected.Some? {
        var i := Storage.IndexOfId(data, selected.value.id);
        if i >= 0 {
          selected := Some(data[i]);
        }
      }
    }

    /** One load of the subscription (at once, then every 10 s) while the dashboard is
        open: the storage service's list is delivered. */
    method Poll(answer: Option<seq<Storage.Record>>)
      requires isAuthenticated
      modifies this`sessions, this`loading, this`selected, store`requests
      ensures !Storage.IsCloudActive(store.scriptUrl) ==> sessions == Storage.LoadLocal(store.item)
      ensures Storage.IsCloudActive(store.scriptUrl) ==>
        sessions == if answer.Some? then Storage.SortByRecent(Storage.CloudSessions(answer.value)) else []
      ensures Storage.SortedByRecent(sessions) && !loading
      ensures selected == Refreshed(old(selected), sessions)
      ensures store.requests == old(store.requests) + (if Storage.IsCloudActive(store.scriptUrl) then [Storage.FetchAll] else [])
    {
      var data := store.LoadData(answer);
      DeliverSessions(data);
    }

    /** The subscription effect depends on the selected id: while signed in, a change of
        that id re-subscribes, which first sets `loading` (the load itself is the next `Poll`). */
    method Resubscribe(before: Option<string>)
      modifies this`loading
      ensures loading == if isAuthenticated && SelectedId(selected) != before then true else old(loading)
    {
      if isAuthenticated && SelectedId(selected) != before {
        loading := true;
      }
    }

    method Select(s: ChatSession)
      modifies this`selected, this`loading
      ensures selected == Some(s)
      ensures loading == if isAuthenticated && SelectedId(old(selected)) != Some(s.id) then true else old(loading)
    {
      var before := SelectedId(selected);
      selected := Some(s);
      Resubscribe(before);
    }

    method Deselect()
      modifies this`selected, this`loading
      ensures selected.None?
      ensures loading == if isAuthenticated && old(selected).Some? then true else old(loading)
    {
      var before := SelectedId(selected);
      selected := None;
      Resubscribe(before);
    }

    /** `handleDelete`, with the answer to the confirmation: the conversation is deleted,
        and the selection cleared exactly when it was the deleted one. */
    method HandleDelete(id: string, confirmed: bool)
      modifies this`selected, this`loading, store`item, store`requests
      ensures !confirmed ==> selected == old(selected) && store.item == old(store.item) && store.requests == old(store.requests)
      ensures confirmed ==>
        && store.item == Storage.Present(Storage.Records(Storage.WithoutId(Storage.LoadLocal(old(store.item)), id)))
        && store.requests == old(store.requests) + (if Storage.IsCloudActive(store.scriptUrl) then [Storage.PostDelete(id)] else [])
        && (selected.None? <==> old(selected).None? || old(selected).value.id == id)
        && (selected.Some? ==> selected == old(selected))
      ensures loading == if isAuthenticated && SelectedId(selected) != SelectedId(old(selected)) then true else old(loading)
    {
      var before := SelectedId(selected);
      if confirmed {
        store.DeleteSession(id);
        if selected.Some? && selected.value.id == id {
          selected := None;
        }
      }
      Resubscribe(before);
    }

    /** `handleClearAll`, with the answer to the confirmation. */
    method HandleClearAll(confirmed: bool)
      modifies this`selected, this`sessions, this`loading, store`item, store`alerts
      ensures !confirmed ==> selected == old(selected) && sessions == old(sessions) && store.item == old(store.item)
      ensures !confirmed ==> store.alerts == old(store.alerts) && loading == old(loading)
      ensures confirmed ==> store.item == Storage.Missing && selected.None? && sessions == []
      ensures confirmed ==> store.alerts == old(store.alerts) + [Storage.ClearedAlert]
      ensures confirmed ==> loading == if isAuthenticated && old(selected).Some? then true else old(loading)
    {
      var before := SelectedId(selected);
      if confirmed {
        store.ClearAllSessions();
        selected := None;
        sessions := [];
      }
      Resubscribe(before);
    }

    /** `handleDownload`: nothing without a selection; otherwise the header followed by one
        line per message, in order. The locale renderings of times are supplied. */
    method HandleDownload(localeTime: int -> string, localeDateTime: int -> string, isoNow: string)
      returns (d: Option<Download>)
      ensures selected.None? ==> d.None?
      ensures selected.Some? ==> d.Some?
      ensures selected.Some? && d.Some? ==>
        var s := selected.value;
        && d.value.lines == HeaderLines(s, localeDateTime(s.lastActive)) + MessageLines(s, s.messages, localeTime)
        && d.value.content == ByteOrderMark + Text.JoinWith(d.value.lines, "\n")
        && d.value.fileName == FileName(s.studentName, isoNow)
    {
      if selected.None? {
        return None;
      }
      var s := selected.value;
      var lines := HeaderLines(s, localeDateTime(s.lastActive));
      var k := 0;
      while k < |s.messages|
        invariant 0 <= k <= |s.messages|
        invariant lines == HeaderLines(s, localeDateTime(s.lastActive)) + MessageLines(s, s.messages[..k], localeTime)
      {
        lines := lines + [MessageLine(s, s.messages[k], localeTime)];
        k := k + 1;
        assert MessageLines(s, s.messages[..k], localeTime)
            == MessageLines(s, s.messages[..k - 1], localeTime) + [MessageLine(s, s.messages[k - 1], localeTime)];
      }
      assert s.messages[..k] == s.messages;
      d := Some(Download(FileName(s.studentName, isoNow), lines, ByteOrderMark + Text.JoinWith(lines, "\n")));
    }
  }

  /** The export has the eleven header lines and then, at position 11 + i, the line of
      message i: its time, its sender and its content. */
  lemma ExportLayout(s: ChatSession, localeTime: int -> string, dateText: string, i: nat)
    requires i < |s.messages|
    ensures var lines := HeaderLines(s, dateText) + MessageLines(s, s.messages, localeTime);
      && |lines| == 11 + |s.messages|
      && lines[11 + i] == "[" + localeTime(s.messages[i].timestamp) + "] " + SenderLabel(s, s.messages[i].isUser)
                          + ": " + ContentLabel(s.messages[i])
  {
  }
}
