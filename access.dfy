/** Who may use the bot (`checkAccess`) and the two commands that open and
    close it to everyone (`/enable_all`, `/disable_all`). The owner and the
    admin are fixed at start-up; everyone else depends on one process-wide
    flag, which starts cleared. */
module Access {

  import opened Wrappers
  import opened Lines
  import opened Decimal
  import opened Transport

  const DenialPrefix := "<i>Sorry, you do not have access to this bot.\nUser ID:</i> <b>"
  const DenialSuffix := "</b>"
  const NoPermissionText := "You do not have permission to use this command."
  const EnabledText := "Bot access has been enabled for all users."
  const DisabledText := "Bot access has been disabled for all non-owner users. Owner access remains unaffected."

  /** The answer to a user turned away, naming their ID. */
  function DenialText(userId: int): string {
    DenialPrefix + IntToString(userId) + DenialSuffix
  }

  /** The user ID a denial names, if `text` is a denial. */
  function DeniedId(text: string): Option<int> {
    match Between(text, DenialPrefix, DenialSuffix)
    case None => None
    case Some(digits) => ParseInt(digits)
  }

  /** A denial names exactly the user it turned away. */
  lemma DenialNamesUser(userId: int)
    ensures DeniedId(DenialText(userId)) == Some(userId)
  {
    BetweenRoundTrip(DenialPrefix, IntToString(userId), DenialSuffix);
    ParseIntToString(userId);
  }

  /** Two different users get different denials. */
  lemma DenialTextInjective(a: int, b: int)
    requires a != b
    ensures DenialText(a) != DenialText(b)
  {
    DenialNamesUser(a);
    DenialNamesUser(b);
  }

  class AccessGate {
    const ownerId: int
    const adminId: int
    /** `ALL_USERS_ACCESS` */
    var allUsersAccess: bool

    constructor (owner: int, admin: int)
      ensures ownerId == owner && adminId == admin
      ensures !allUsersAccess
    {
      ownerId := owner;
      adminId := admin;
      allUsersAccess := false;
    }

    predicate Privileged(userId: int) {
      userId == ownerId || userId == adminId
    }

    /** `checkAccess`: the owner and the admin always pass, anyone else only
        while the flag is set; a user turned away gets one answer naming
        their ID, and a user let through gets none. */
    method Check(userId: int) returns (admitted: bool, effects: seq<Effect>)
      ensures admitted <==> Privileged(userId) || allUsersAccess
      ensures admitted ==> effects == []
      ensures !admitted ==> effects == [Answer(DenialText(userId))]
    {
      if userId == ownerId || userId == adminId {
        return true, [];
      }
      if allUsersAccess {
        return true, [];
      }
      return false, [Answer(DenialText(userId))];
    }

    /** `/enable_all`: sets the flag for the owner or the admin; anyone else
        is told they lack permission and the flag stays as it was. */
    method EnableAll(userId: int) returns (effects: seq<Effect>)
      modifies this
      ensures allUsersAccess == (Privileged(userId) || old(allUsersAccess))
      ensures effects == [Answer(if Privileged(userId) then EnabledText else NoPermissionText)]
    {
      if userId != ownerId && userId != adminId {
        return [Answer(NoPermissionText)];
      }
      allUsersAccess := true;
      return [Answer(EnabledText)];
    }

    /** `/disable_all`: clears the flag for the owner or the admin; anyone
        else is told they lack permission and the flag stays as it was. */
    method DisableAll(userId: int) returns (effects: seq<Effect>)
      modifies this
      ensures allUsersAccess == (!Privileged(userId) && old(allUsersAccess))
      ensures effects == [Answer(if Privileged(userId) then DisabledText else NoPermissionText)]
    {
      if userId != ownerId && userId != adminId {
        return [Answer(NoPermissionText)];
      }
      allUsersAccess := false;
      return [Answer(DisabledText)];
    }
  }
}
