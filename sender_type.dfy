/** The IRheader sender types and their RTI text (IRheaderSenderType.cs). */
module SenderTypes {

  /** `IRheaderSenderType`, in declaration order. */
  datatype IRheaderSenderType =
    | Individual | Company | Agent | Bureau | Partnership
    | Trust | Employer | Government | ActingInCapacity | Other

  /** The numeric value of a member: its position in the declaration, from 0. */
  function Ordinal(s: IRheaderSenderType): nat {
    match s
    case Individual => 0 case Company => 1 case Agent => 2 case Bureau => 3 case Partnership => 4
    case Trust => 5 case Employer => 6 case Government => 7 case ActingInCapacity => 8 case Other => 9
  }

  /** The ten members in declaration order, each at the index of its numeric value. */
  function AllSenderTypes(): (r: seq<IRheaderSenderType>)
    ensures |r| == 10
    ensures forall s :: Ordinal(s) < 10 && r[Ordinal(s)] == s
    ensures forall i, j :: 0 <= i < j < |r| ==> r[i] != r[j]
  {
    [Individual, Company, Agent, Bureau, Partnership, Trust, Employer, Government, ActingInCapacity, Other]
  }

  /** `Enum.ToString()`: the member's identifier. */
  function IdentifierName(s: IRheaderSenderType): string {
    match s
    case Individual => "Individual"
    case Company => "Company"
    case Agent => "Agent"
    case Bureau => "Bureau"
    case Partnership => "Partnership"
    case Trust => "Trust"
    case Employer => "Employer"
    case Government => "Government"
    case ActingInCapacity => "ActingInCapacity"
    case Other => "Other"
  }

  /** `ToSender`: "Acting in Capacity" for ActingInCapacity, the identifier for the rest;
      only ActingInCapacity's text contains a space. */
  function ToSender(sender: IRheaderSenderType): (r: string)
    ensures sender == ActingInCapacity ==> r == "Acting in Capacity"
    ensures sender != ActingInCapacity ==> r == IdentifierName(sender)
    ensures ' ' in r <==> sender == ActingInCapacity
  {
    match sender
    case ActingInCapacity =>
      assert "Acting in Capacity"[6] == ' ';
      "Acting in Capacity"
    case _ =>
      assert ' ' !in IdentifierName(sender);
      IdentifierName(sender)
  }

  /** ActingInCapacity is the one member whose text is not its identifier: it is sent as
      "Acting in Capacity". */
  lemma OnlyActingInCapacityIsSpelledOut(sender: IRheaderSenderType)
    ensures ToSender(sender) != IdentifierName(sender) <==> sender == ActingInCapacity
    ensures ToSender(ActingInCapacity) == "Acting in Capacity"
    ensures ToSender(Employer) == "Employer"
  {
    if sender == ActingInCapacity {
      assert ' ' in ToSender(sender);
      assert ' ' !in IdentifierName(sender);
    }
  }

  /** Different sender types give different texts. */
  lemma ToSenderInjective(a: IRheaderSenderType, b: IRheaderSenderType)
    ensures ToSender(a) == ToSender(b) ==> a == b
  {
  }
}
