/** The one-time-password table of `backend/app/core/email.py`: a module-level
    dictionary from e-mail address to `{otp, expires_at}`, filled by
    `send_otp_email` (before its SMTP configuration check) and emptied by
    `verify_otp` (on expiry and on a match), together with the
    `verified_emails` grace map declared beside it. The clock, the random
    digits and the SMTP session's outcome are inputs. */
module EmailOtp {
  import opened Util

  /** `generate_otp`'s default length. */
  const OtpLength: nat := 6
  /** Seconds an OTP stays valid. */
  const OtpLifetime: int := 60

  datatype OtpEntry = OtpEntry(otp: string, expiresAt: int)

  type OtpTable = map<string, OtpEntry>

  /** `SMTP_USER` and `SMTP_PASSWORD` from the settings. */
  datatype SmtpSettings = SmtpSettings(user: string, password: string)

  /** How the SMTP session ended: delivered, `SMTPAuthenticationError`, or
      any other exception with its text. */
  datatype SmtpOutcome = Delivered | AuthenticationFailed | SendFailed(error: string)

  /** `send_otp_email`'s outcome: the OTP it returned, or the `ValueError` it raised. */
  datatype SendResult = Sent(otp: string) | SendError(message: string)

  const NotConfiguredMessage: string :=
    "SMTP not configured! Please set SMTP_USER and SMTP_PASSWORD in backend/.env file. " +
    "For Gmail, use an App Password (not your regular password)."
  const AuthFailedMessage: string :=
    "Failed to send email: SMTP authentication error. Check your Gmail App Password in backend/.env file."

  function SendFailedMessage(error: string): string {
    "Failed to send email: " + AsciiIgnore(error) + ". Please check your SMTP configuration in backend/.env"
  }

  /** Random draws `random.choices` may return: indices into `string.digits`. */
  predicate ValidDraws(draws: seq<nat>) {
    |draws| >= OtpLength && forall i :: 0 <= i < |draws| ==> draws[i] < 10
  }

  /** `generate_otp(length)` for the given random draws. */
  function GenerateOtp(length: nat, draws: seq<nat>): (otp: string)
    requires |draws| >= length && forall i :: 0 <= i < |draws| ==> draws[i] < 10
    ensures |otp| == length && AllDigits(otp)
  {
    seq(length, i requires 0 <= i < length => DigitChar(draws[i]))
  }

  /** The configuration test: neither placeholder value, a non-empty
      password, and an '@' in the user name. */
  predicate SmtpConfigured(s: SmtpSettings) {
    s.user != "your-email@gmail.com" && s.password != "your-app-password" &&
    s.password != "" && Contains(s.user, "@")
  }

  /** What `send_otp_email` returns or raises once the OTP is stored. */
  function SendOutcome(otp: string, settings: SmtpSettings, smtp: SmtpOutcome): SendResult {
    if !SmtpConfigured(settings) then SendError(NotConfiguredMessage)
    else match smtp
      case Delivered => Sent(otp)
      case AuthenticationFailed => SendError(AuthFailedMessage)
      case SendFailed(error) => SendError(SendFailedMessage(error))
  }

  /** The table after `send_otp_email` stored a fresh OTP at time `now`. */
  function AfterSend(otps: OtpTable, email: string, otp: string, now: int): OtpTable {
    otps[email := OtpEntry(otp, now + OtpLifetime)]
  }

  /** `verify_otp`'s answer and the table it leaves behind. */
  datatype Verdict = Verdict(ok: bool, otps: OtpTable)

  /** Whether an entry has lapsed at `now` (`expires_at and now > expires_at`). */
  predicate Lapsed(e: OtpEntry, now: int) {
    e.expiresAt != 0 && now > e.expiresAt
  }

  /** `verify_otp(email, otp)` at time `now`: only the entry for `email` can
      change, and only by being deleted; a success always deletes it. */
  function Verify(otps: OtpTable, email: string, otp: string, now: int): (v: Verdict)
    ensures v.otps == otps || v.otps == otps - {email}
    ensures v.ok ==> email in otps && otps[email].otp == otp && email !in v.otps
    ensures email !in otps ==> v == Verdict(false, otps)
  {
    if email !in otps then Verdict(false, otps)
    else
      var e := otps[email];
      if Lapsed(e, now) then Verdict(false, otps - {email})
      else if e.otp == otp then Verdict(true, otps - {email})
      else Verdict(false, otps)
  }

  // ---------------------------------------------------------------------------
  // Properties

  /** An OTP is accepted exactly when its entry is there, unlapsed, and equal. */
  lemma VerifyAccepts(otps: OtpTable, email: string, otp: string, now: int)
    ensures Verify(otps, email, otp, now).ok <==>
      (email in otps && !Lapsed(otps[email], now) && otps[email].otp == otp)
  {
  }

  /** A lapsed entry is deleted and refused; at the deadline itself the code is still accepted. */
  lemma ExpiryBoundary(otps: OtpTable, email: string, otp: string, now: int)
    requires email in otps
    ensures Lapsed(otps[email], now) ==> Verify(otps, email, otp, now) == Verdict(false, otps - {email})
    ensures now == otps[email].expiresAt && otps[email].otp == otp ==>
      Verify(otps, email, otp, now) == Verdict(true, otps - {email})
  {
  }

  /** A wrong code on an unlapsed entry is refused and the entry is kept. */
  lemma MismatchKeepsEntry(otps: OtpTable, email: string, otp: string, now: int)
    requires email in otps && !Lapsed(otps[email], now) && otps[email].otp != otp
    ensures Verify(otps, email, otp, now) == Verdict(false, otps)
  {
  }

  /** One-time use: after a success, the same address fails at any later time
      with any code until a new OTP is sent. */
  lemma OneTimeUse(otps: OtpTable, email: string, otp: string, otp2: string, now: int, later: int)
    requires Verify(otps, email, otp, now).ok
    ensures !Verify(Verify(otps, email, otp, now).otps, email, otp2, later).ok
  {
  }

  /** A freshly sent code is accepted up to and including sixty seconds later,
      and refused after that. */
  lemma SentCodeWindow(otps: OtpTable, email: string, otp: string, sentAt: int, now: int)
    requires sentAt + OtpLifetime != 0
    ensures Verify(AfterSend(otps, email, otp, sentAt), email, otp, now).ok <==> now <= sentAt + OtpLifetime
  {
  }

  /** Sending replaces whatever entry the address had, so an older code stops working. */
  lemma SendReplacesOldCode(otps: OtpTable, email: string, oldOtp: string, otp: string, sentAt: int, now: int)
    requires oldOtp != otp
    ensures !Verify(AfterSend(otps, email, otp, sentAt), email, oldOtp, now).ok
  {
  }

  // ---------------------------------------------------------------------------
  // The module-level dictionaries

  class OtpStore {
    var otps: OtpTable
    /** `verified_emails`: grace deadlines the sign-up flow keeps per address. */
    var verifiedEmails: map<string, int>

    constructor ()
      ensures otps == map[] && verifiedEmails == map[]
    {
      otps, verifiedEmails := map[], map[];
    }

    /** `send_otp_email(email)`: the entry is written first, so it exists
        whether or not the message can be sent. */
    method SendOtpEmail(email: string, draws: seq<nat>, now: int, settings: SmtpSettings, smtp: SmtpOutcome)
      returns (r: SendResult)
      requires ValidDraws(draws)
      modifies this
      ensures otps == AfterSend(old(otps), email, GenerateOtp(OtpLength, draws), now)
      ensures email in otps && otps[email].expiresAt == now + OtpLifetime
      ensures verifiedEmails == old(verifiedEmails)
      ensures r == SendOutcome(GenerateOtp(OtpLength, draws), settings, smtp)
      ensures !SmtpConfigured(settings) ==> r == SendError(NotConfiguredMessage)
    {
      var otp := GenerateOtp(OtpLength, draws);
      otps := otps[email := OtpEntry(otp, now + OtpLifetime)];
      if !SmtpConfigured(settings) {
        return SendError(NotConfiguredMessage);
      }
      match smtp {
        case Delivered => r := Sent(otp);
        case AuthenticationFailed => r := SendError(AuthFailedMessage);
        case SendFailed(error) => r := SendError(SendFailedMessage(error));
      }
    }

    /** `verify_otp(email, otp)` at time `now`. */
    method VerifyOtp(email: string, otp: string, now: int) returns (ok: bool)
      modifies this
      ensures Verdict(ok, otps) == Verify(old(otps), email, otp, now)
      ensures verifiedEmails == old(verifiedEmails)
    {
      if email in otps {
        var stored := otps[email];
        if stored.expiresAt != 0 && now > stored.expiresAt {
          otps := otps - {email};
          return false;
        }
        if stored.otp == otp {
          otps := otps - {email};
          return true;
        }
      }
      return false;
    }
  }
}
