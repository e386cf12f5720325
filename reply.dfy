/**
 * The reply entity: its null-safe ownership check and the validation done by `update`.
 * `update` checks the new text and throws on bad input but assigns no field, so the model
 * gives back the reply it was called on, untouched, when the check passes.
 */
module Replies {
  import opened Common

  /** The longest comment `update` accepts, the length of the `comment` column. */
  const MaxCommentLength: int := 500

  const CommentRequiredMessage: string := "댓글 내용은 필수 입니다."
  const CommentTooLongMessage: string := "댓글은 500자 이하여야 합니다."

  /** The referenced user; only its (nullable) identifier matters here. */
  datatype UserRef = UserRef(id: Option<int>)
  /** The referenced board. */
  datatype BoardRef = BoardRef(id: Option<int>)

  datatype Reply = Reply(
    id: Option<int>,
    comment: Option<string>,
    user: Option<UserRef>,
    board: Option<BoardRef>,
    createdAt: Option<int>)

  /** `Reply.builder()...build()`: the three given fields, no id and no creation time yet. */
  function BuildReply(comment: Option<string>, user: Option<UserRef>, board: Option<BoardRef>): (r: Reply)
    ensures r.comment == comment && r.user == user && r.board == board
    ensures r.id.None? && r.createdAt.None?
  {
    Reply(None, comment, user, board, None)
  }

  /** `isOwner(userId)`: false on any null along the way, otherwise plain equality of the ids. */
  predicate IsOwner(reply: Reply, userId: Option<int>)
  {
    if reply.user.None? || userId.None? then false
    else
      var replyUserId := reply.user.value.id;
      if replyUserId.None? then false else replyUserId.value == userId.value
  }

  /** Ownership is decided by full identifier equality only, and a null anywhere means "not the owner". */
  lemma IsOwnerExactly(reply: Reply, userId: Option<int>)
    ensures IsOwner(reply, userId) <==>
      (userId.Some? && reply.user.Some? && reply.user.value.id == userId)
    ensures reply.user.None? ==> !IsOwner(reply, userId)
    ensures userId.None? ==> !IsOwner(reply, userId)
    ensures reply.user.Some? && reply.user.value.id.None? ==> !IsOwner(reply, userId)
  {
  }

  /** A reply has at most one owner id: no two distinct ids are both accepted. */
  lemma IsOwnerUnique(reply: Reply, a: Option<int>, b: Option<int>)
    requires IsOwner(reply, a) && IsOwner(reply, b)
    ensures a == b && a == reply.user.value.id
  {
  }

  /** A character that Java's `String.trim` removes: code point at most U+0020. */
  predicate IsTrimmed(c: char) {
    c <= ' '
  }

  function TrimLeading(s: string): (t: string)
    ensures |t| <= |s| && t == s[|s| - |t|..]
    ensures t != [] ==> !IsTrimmed(t[0])
  {
    if s != [] && IsTrimmed(s[0]) then TrimLeading(s[1..]) else s
  }

  function TrimTrailing(s: string): (t: string)
    ensures |t| <= |s| && t == s[..|t|]
    ensures t != [] ==> !IsTrimmed(t[|t| - 1])
    ensures s != [] && !IsTrimmed(s[0]) ==> t != []
  {
    if s != [] && IsTrimmed(s[|s| - 1]) then TrimTrailing(s[..|s| - 1]) else s
  }

  /** `String.trim`: the string without its leading and trailing control characters and spaces. */
  function Trim(s: string): string {
    TrimTrailing(TrimLeading(s))
  }

  /** A string Java considers blank after trimming: every character is a space or a control character. */
  predicate IsBlank(s: string) {
    forall i :: 0 <= i < |s| ==> IsTrimmed(s[i])
  }

  /** `s.trim().isEmpty()` holds exactly when every character of `s` is trimmed away. */
  lemma {:induction false} TrimEmptyIffBlank(s: string)
    ensures Trim(s) == [] <==> IsBlank(s)
  {
    LeadingEmptyIffBlank(s);
  }

  lemma {:induction false} LeadingEmptyIffBlank(s: string)
    ensures TrimLeading(s) == [] <==> IsBlank(s)
    decreases |s|
  {
    if s != [] && IsTrimmed(s[0]) {
      LeadingEmptyIffBlank(s[1..]);
      assert IsBlank(s) <==> IsBlank(s[1..]) by {
        if IsBlank(s[1..]) {
          forall i | 0 <= i < |s| ensures IsTrimmed(s[i]) {
            if i > 0 { assert s[i] == s[1..][i - 1]; }
          }
        }
      }
    }
  }

  /**
   * `update(newString)`: a null or blank comment fails first, then one longer than 500
   * characters; otherwise the call returns and the reply is unchanged, comment included.
   */
  function Update(reply: Reply, newString: Option<string>): (r: Result<Reply>)
    ensures r.Ok? <==> newString.Some? && !IsBlank(newString.value) && |newString.value| <= MaxCommentLength
    ensures r.Ok? ==> r.value == reply
    ensures (newString.None? || IsBlank(newString.value)) ==> r == Err(BadRequest(CommentRequiredMessage))
    ensures newString.Some? && !IsBlank(newString.value) && |newString.value| > MaxCommentLength ==>
      r == Err(BadRequest(CommentTooLongMessage))
  {
    if newString.None? || (TrimEmptyIffBlank(newString.value); Trim(newString.value) == []) then
      Err(BadRequest(CommentRequiredMessage))
    else if |newString.value| > MaxCommentLength then
      Err(BadRequest(CommentTooLongMessage))
    else
      Ok(reply)
  }

  /** Even an accepted new text leaves the stored comment as it was. */
  lemma UpdateKeepsComment(reply: Reply, newString: string)
    requires !IsBlank(newString) && |newString| <= MaxCommentLength
    requires reply.comment != Some(newString)
    ensures Update(reply, Some(newString)).Ok?
    ensures Update(reply, Some(newString)).value.comment != Some(newString)
  {
  }
}
