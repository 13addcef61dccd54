/**
 * src/lib/idempotency.ts and the msg-id it reads: the key under which a mailbox recognises an email it
 * already has. The key is the folded Message-ID where there is one, and the hash of the bytes otherwise.
 */
module Idempotency {
  import opened Common
  import Text

  /** Without one leading `<` and one trailing `>`. */
  function Bare(id: string): string {
    var rest := if id != "" && id[0] == '<' then id[1..] else id;
    if rest != "" && rest[|rest| - 1] == '>' then rest[..|rest| - 1] else rest
  }

  /** src/lib/email-metadata.ts: the msg-id in its stored form, or None where nothing is left of it. */
  function NormalizeMessageId(value: Option<string>): Option<string> {
    match value
    case None => None
    case Some(v) =>
      var id := Bare(Text.Trim(v));
      if id == "" then None else Some(id)
  }

  function InboundIdempotencyKey(mailbox: string, messageId: Option<string>, sha: string): string {
    match NormalizeMessageId(messageId)
    case Some(id) => "email:v1:" + mailbox + ":message-id:" + Text.Lower(id)
    case None => "email:v1:" + mailbox + ":raw-sha256:" + sha
  }

  // ---------------------------------------------------------------- which emails share a key

  /** The two Message-IDs are one up to case, or neither email has one and the bytes are the same. */
  ghost predicate SameMail(messageId: Option<string>, sha: string, messageId': Option<string>, sha': string) {
    match (NormalizeMessageId(messageId), NormalizeMessageId(messageId'))
    case (Some(id), Some(id')) => Text.SameUpToCase(id, id')
    case (None, None) => sha == sha'
    case _ => false
  }

  /** Of two emails without a Message-ID, whatever mailboxes they are for. */
  lemma HashKeysDiffer(mailbox: string, id: Option<string>, sha: string, mailbox': string, id': Option<string>,
                       sha': string)
    requires NormalizeMessageId(id).None? && NormalizeMessageId(id').None?
    requires |sha| == |sha'|
    ensures InboundIdempotencyKey(mailbox, id, sha) == InboundIdempotencyKey(mailbox', id', sha') <==>
            mailbox == mailbox' && sha == sha'
  {
    Text.PartAtEnd("email:v1:" + mailbox + ":raw-sha256:", "email:v1:" + mailbox' + ":raw-sha256:", sha, sha');
    Text.PartAtEnd("email:v1:" + mailbox, "email:v1:" + mailbox', ":raw-sha256:", ":raw-sha256:");
    Text.PartAfter("email:v1:", mailbox, mailbox');
  }

  /** Of two emails of one mailbox. */
  lemma SameKeyIff(mailbox: string, id: Option<string>, sha: string, id': Option<string>, sha': string)
    requires |sha| == |sha'|
    ensures InboundIdempotencyKey(mailbox, id, sha) == InboundIdempotencyKey(mailbox, id', sha') <==>
            SameMail(id, sha, id', sha')
  {
    var head := "email:v1:" + mailbox;
    var key, key' := InboundIdempotencyKey(mailbox, id, sha), InboundIdempotencyKey(mailbox, id', sha');
    match (NormalizeMessageId(id), NormalizeMessageId(id'))
    case (Some(a), Some(b)) =>
      Text.PartAfter(head + ":message-id:", Text.Lower(a), Text.Lower(b));
      Text.FoldedAlike(a, b);
    case (None, None) => HashKeysDiffer(mailbox, id, sha, mailbox, id', sha');
    case (Some(a), None) => assert key[|head| + 1] == 'm' && key'[|head| + 1] == 'r';
    case (None, Some(b)) => assert key[|head| + 1] == 'r' && key'[|head| + 1] == 'm';
  }

  /** Keys of two mailboxes never meet, when no mailbox id has a colon. */
  lemma MailboxesApart(mailbox: string, id: Option<string>, sha: string, mailbox': string, id': Option<string>,
                       sha': string)
    requires ':' !in mailbox && ':' !in mailbox'
    requires InboundIdempotencyKey(mailbox, id, sha) == InboundIdempotencyKey(mailbox', id', sha')
    ensures mailbox == mailbox'
  {
    var rest := KeyTail(mailbox, id, sha);
    var rest' := KeyTail(mailbox', id', sha');
    Text.PartAfter("email:v1:", mailbox + [':'] + rest, mailbox' + [':'] + rest');
    Text.PartAtFirst(mailbox, mailbox', rest, rest', ':');
  }

  lemma KeyTail(mailbox: string, id: Option<string>, sha: string) returns (rest: string)
    ensures InboundIdempotencyKey(mailbox, id, sha) == "email:v1:" + (mailbox + [':'] + rest)
  {
    match NormalizeMessageId(id)
    case Some(m) =>
      rest := "message-id:" + Text.Lower(m);
      assert "email:v1:" + mailbox + ":message-id:" + Text.Lower(m) == "email:v1:" + (mailbox + [':'] + rest);
    case None =>
      rest := "raw-sha256:" + sha;
      assert "email:v1:" + mailbox + ":raw-sha256:" + sha == "email:v1:" + (mailbox + [':'] + rest);
  }

  // ---------------------------------------------------------------- the stored form of a msg-id

  /** No blanks at either end, no bracket left to strip, and something is there. */
  ghost predicate IsBare(id: string) {
    id != "" && Text.Trimmed(id) && id[0] != '<' && id[|id| - 1] != '>'
  }

  /** A bare id is its own stored form, and so is the one in brackets with any blanks about it. */
  lemma StoredForm(id: string, left: string, right: string)
    requires IsBare(id)
    requires (forall c | c in left :: Text.IsBlank(c)) && (forall c | c in right :: Text.IsBlank(c))
    ensures NormalizeMessageId(Some(id)) == Some(id)
    ensures NormalizeMessageId(Some(left + ("<" + id + ">") + right)) == Some(id)
    ensures NormalizeMessageId(Some(left)).None?
  {
    Text.TrimPadded("", id, "");
    assert "" + id + "" == id;
    var t := "<" + id + ">";
    Text.TrimPadded(left, t, right);
    assert t[1..] == id + ">" && (id + ">")[..|id|] == id;
    Text.BlankTrimmed(left);
  }

  /**
   * The replay of an email rebuilds the key its first delivery had: it starts from the stored form of the
   * Message-ID where the delivery started from the header, and both end in the bare id.
   */
  lemma StoredFormSharesKey(mailbox: string, id: string, left: string, right: string, sha: string)
    requires IsBare(id)
    requires (forall c | c in left :: Text.IsBlank(c)) && (forall c | c in right :: Text.IsBlank(c))
    ensures var header := Some(left + ("<" + id + ">") + right);
            InboundIdempotencyKey(mailbox, NormalizeMessageId(header), sha) ==
            InboundIdempotencyKey(mailbox, NormalizeMessageId(NormalizeMessageId(header)), sha)
  {
    StoredForm(id, left, right);
  }
}
