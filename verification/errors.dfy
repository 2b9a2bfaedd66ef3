/**
 * The message shown when starting the microphone fails. The thrown value is
 * either a `DOMException` (checked first), another `Error`, or any other
 * value; six `DOMException` names have fixed messages.
 */
module AcquisitionErrors {
  import opened Options

  /** What the failed start threw. `rendered` is what the error's `toString()` returns. */
  datatype Thrown =
    | DomException(name: string, message: string)
    | ErrorObject(message: string, rendered: string)
    | NonError

  /** The failure kinds that `App.tsx` gives a message of their own. */
  datatype Fault =
    | PermissionDenied
    | DeviceNotFound
    | DeviceUnavailable
    | ConstraintsNotSatisfiable
    | Aborted
    | SecurityRestricted

  /** The platform's name for each fault. */
  function FaultName(f: Fault): (name: string)
    ensures |name| > 5 && name[|name| - 5..] == "Error"
  {
    match f
    case PermissionDenied => "NotAllowedError"
    case DeviceNotFound => "NotFoundError"
    case DeviceUnavailable => "NotReadableError"
    case ConstraintsNotSatisfiable => "OverconstrainedError"
    case Aborted => "AbortError"
    case SecurityRestricted => "SecurityError"
  }

  /** The fault a `DOMException` name stands for, if it is one of the six. */
  function Classify(name: string): (r: Option<Fault>)
    ensures r.Some? ==> FaultName(r.value) == name
    ensures r.None? ==> forall f: Fault :: FaultName(f) != name
  {
    if name == "NotAllowedError" then Some(PermissionDenied)
    else if name == "NotFoundError" then Some(DeviceNotFound)
    else if name == "NotReadableError" then Some(DeviceUnavailable)
    else if name == "OverconstrainedError" then Some(ConstraintsNotSatisfiable)
    else if name == "AbortError" then Some(Aborted)
    else if name == "SecurityError" then Some(SecurityRestricted)
    else None
  }

  /** Classifying a fault's own name gives the fault back. */
  lemma ClassifyName(f: Fault)
    ensures Classify(FaultName(f)) == Some(f)
  {
  }

  /**
   * The fixed message of each fault. Long literals are written as two pieces
   * so that the verifier can reach their opening characters.
   */
  function FaultMessage(f: Fault): (msg: string)
    ensures !(GenericPrefix <= msg) && msg != UnknownMessage
  {
    match f
    case PermissionDenied =>
      assert PermissionDeniedMessage[9] != GenericPrefix[9];
      PermissionDeniedMessage
    case DeviceNotFound =>
      assert DeviceNotFoundMessage[9] != GenericPrefix[9];
      DeviceNotFoundMessage
    case DeviceUnavailable =>
      assert DeviceUnavailableMessage[8] != GenericPrefix[8];
      DeviceUnavailableMessage
    case ConstraintsNotSatisfiable =>
      assert ConstraintsMessage[0] != GenericPrefix[0];
      ConstraintsMessage
    case Aborted =>
      assert AbortedMessage[15] != GenericPrefix[15];
      AbortedMessage
    case SecurityRestricted =>
      assert SecurityMessage[0] != GenericPrefix[0];
      SecurityMessage
  }

  const PermissionDeniedMessage: string :=
    "Mikrofon izni reddedildi. "
    + "Lütfen tarayıcı adres çubuğunun solundaki kilit simgesine tıklayarak \"Site Ayarları\"ndan mikrofon erişimine izin verin."

  const DeviceNotFoundMessage: string :=
    "Mikrofon bulunamadı. "
    + "Lütfen cihazınıza bir mikrofon bağlı olduğundan emin olun."

  const DeviceUnavailableMessage: string :=
    "Mikrofonunuza erişilemiyor. "
    + "Başka bir uygulama tarafından kullanılıyor olabilir."

  const ConstraintsMessage: string :=
    "Belirtilen " + "mikrofon gereksinimleri karşılanamıyor."

  const AbortedMessage: string :=
    "Mikrofon erişimi " + "işlemi iptal edildi."

  const SecurityMessage: string :=
    "Güvenlik " + "kısıtlamaları nedeniyle mikrofona erişilemiyor."

  /** Opening of every message that reports an error the table does not know. */
  const GenericPrefix: string := "Mikrofon erişim hatası: "

  /** Stand-in for an empty `DOMException` message. */
  const NoDetail: string := "Detay yok"

  /** Message for a thrown value that is not an `Error` at all. */
  const UnknownMessage: string :=
    "Bilinmeyen bir mikrofon erişim hatası oluştu. "
    + "Tarayıcınızın Web Audio API'yi desteklediğinden emin olun."

  /** JavaScript's `a || b` on strings: the empty string is falsy. */
  function OrElse(a: string, b: string): string
  {
    if a == "" then b else a
  }

  /** The message alerted for a failed start. */
  function AlertMessage(t: Thrown): (msg: string)
    ensures t.DomException? && Classify(t.name).Some? ==> msg == FaultMessage(Classify(t.name).value)
    ensures t.DomException? && Classify(t.name).None? ==>
      GenericPrefix + t.name <= msg
    ensures t.DomException? && Classify(t.name).None? && t.message != "" ==>
      msg == GenericPrefix + t.name + " - " + t.message
    ensures t.DomException? && Classify(t.name).None? && t.message == "" ==>
      msg == GenericPrefix + t.name + " - " + NoDetail
    ensures t.ErrorObject? ==> GenericPrefix <= msg
    ensures t.ErrorObject? && t.message != "" ==> msg == GenericPrefix + t.message
    ensures t.ErrorObject? && t.message == "" ==> msg == GenericPrefix + t.rendered
    ensures t.NonError? ==> msg == UnknownMessage
  {
    match t
    case DomException(name, message) =>
      (match Classify(name)
       case Some(f) => FaultMessage(f)
       case None => GenericPrefix + name + " - " + OrElse(message, NoDetail))
    case ErrorObject(message, rendered) => GenericPrefix + OrElse(message, rendered)
    case NonError => UnknownMessage
  }

  /** The six fixed messages are pairwise distinct. */
  lemma FaultMessagesDistinct(f: Fault, g: Fault)
    requires f != g
    ensures FaultMessage(f) != FaultMessage(g)
  {
  }

  /** Reads a fixed message back to its fault: the inverse of `FaultMessage`. */
  function FaultOfMessage(msg: string): (r: Option<Fault>)
    ensures r.Some? ==> FaultMessage(r.value) == msg
  {
    if msg == FaultMessage(PermissionDenied) then Some(PermissionDenied)
    else if msg == FaultMessage(DeviceNotFound) then Some(DeviceNotFound)
    else if msg == FaultMessage(DeviceUnavailable) then Some(DeviceUnavailable)
    else if msg == FaultMessage(ConstraintsNotSatisfiable) then Some(ConstraintsNotSatisfiable)
    else if msg == FaultMessage(Aborted) then Some(Aborted)
    else if msg == FaultMessage(SecurityRestricted) then Some(SecurityRestricted)
    else None
  }

  /** A message starting with the generic prefix is none of the fixed ones. */
  lemma GenericIsNoFaultMessage(rest: string, f: Fault)
    ensures GenericPrefix + rest != FaultMessage(f)
  {
    var m := GenericPrefix + rest;
    assert m[0] == 'M' && m[8] == ' ' && m[9] == 'e' && m[15] == ' ';
  }

  /**
   * The alert tells the user exactly which fault occurred: reading the
   * message back yields the fault of a known `DOMException` name, and no
   * fault for every other thrown value.
   */
  lemma AlertIdentifiesFault(t: Thrown)
    ensures FaultOfMessage(AlertMessage(t)) == (if t.DomException? then Classify(t.name) else None)
  {
    match t
    case DomException(name, message) =>
      match Classify(name) {
        case Some(f) =>
          FaultOfFaultMessage(f);
        case None =>
          var rest := name + " - " + OrElse(message, NoDetail);
          assert AlertMessage(t) == GenericPrefix + rest;
          NotAFaultMessage(rest);
      }
    case ErrorObject(message, rendered) =>
      assert AlertMessage(t) == GenericPrefix + OrElse(message, rendered);
      NotAFaultMessage(OrElse(message, rendered));
    case NonError =>
      UnknownIsNoFaultMessage();
  }

  lemma UnknownIsNoFaultMessage()
    ensures FaultOfMessage(UnknownMessage) == None
  {
  }

  lemma FaultOfFaultMessage(f: Fault)
    ensures FaultOfMessage(FaultMessage(f)) == Some(f)
  {
  }

  lemma NotAFaultMessage(rest: string)
    ensures FaultOfMessage(GenericPrefix + rest) == None
  {
    GenericIsNoFaultMessage(rest, PermissionDenied);
    GenericIsNoFaultMessage(rest, DeviceNotFound);
    GenericIsNoFaultMessage(rest, DeviceUnavailable);
    GenericIsNoFaultMessage(rest, ConstraintsNotSatisfiable);
    GenericIsNoFaultMessage(rest, Aborted);
    GenericIsNoFaultMessage(rest, SecurityRestricted);
  }
}
