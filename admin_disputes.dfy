/**
 * The admin's dispute list: a fixed set of disputes, a status filter and the
 * per-status counts.
 */
module AdminDisputes {
  import opened Text

  datatype Dispute = Dispute(
    id: string,
    kind: string,
    farmer: string,
    consumer: string,
    status: string,
    amount: string,
    date: string,
    description: string)

  const SampleDisputes: seq<Dispute> := [
    Dispute("DSP-045", "Quality Issue", "Anand Sharma", "Meera Kapoor", "Open", "₹340", "2026-02-23", "Tomatoes received were not fresh as described."),
    Dispute("DSP-044", "Late Delivery", "Rajesh Kumar", "Amit Patel", "Resolved", "₹450", "2026-02-22", "Order delivered 3 days late without notification."),
    Dispute("DSP-043", "Wrong Item", "Sunita Devi", "Neha Rao", "Open", "₹280", "2026-02-21", "Received onions instead of potatoes."),
    Dispute("DSP-042", "Quantity Mismatch", "Vikram Patel", "Suresh Jain", "In Review", "₹520", "2026-02-20", "Ordered 5kg rice but received only 3kg."),
    Dispute("DSP-041", "Quality Issue", "Priya Singh", "Kavita Nair", "Resolved", "₹180", "2026-02-19", "Bananas were overripe on arrival."),
    Dispute("DSP-040", "Refund Request", "Anand Sharma", "Rahul Mehta", "Open", "₹650", "2026-02-18", "Order cancelled but refund not processed.")
  ]

  function HasStatus(status: string): Dispute -> bool
  {
    (d: Dispute) => d.status == status
  }

  /** `filter === 'All' ? disputes : disputes.filter(d => d.status === filter)`. */
  function FilterDisputes(disputes: seq<Dispute>, filter: string): (r: seq<Dispute>)
    ensures filter == "All" ==> r == disputes
    ensures filter != "All" ==> SubsequenceOf(r, disputes)
    ensures filter != "All" ==> forall i :: 0 <= i < |r| ==> r[i].status == filter
    ensures filter != "All" ==> forall i :: 0 <= i < |disputes| && disputes[i].status == filter ==> disputes[i] in r
  {
    if filter == "All" then disputes else Filter(disputes, HasStatus(filter))
  }

  /** `disputes.filter(d => d.status === status).length`, counted one dispute at a time. */
  function CountStatus(disputes: seq<Dispute>, status: string): (n: nat)
    ensures n <= |disputes|
  {
    if disputes == [] then 0
    else (if disputes[0].status == status then 1 else 0) + CountStatus(disputes[1..], status)
  }

  /** Filtering by a status other than "All" shows as many disputes as that status counts. */
  lemma {:induction false} FilterMatchesCount(disputes: seq<Dispute>, status: string)
    requires status != "All"
    ensures |FilterDisputes(disputes, status)| == CountStatus(disputes, status)
  {
    if disputes != [] {
      FilterMatchesCount(disputes[1..], status);
    }
  }

  /** When every dispute has one of the three statuses, the three counts add up to the total. */
  lemma {:induction false} CountsPartition(disputes: seq<Dispute>)
    requires forall i :: 0 <= i < |disputes| ==>
               disputes[i].status in {"Open", "In Review", "Resolved"}
    ensures CountStatus(disputes, "Open") + CountStatus(disputes, "In Review")
              + CountStatus(disputes, "Resolved") == |disputes|
  {
    if disputes != [] {
      var rest := disputes[1..];
      assert forall i :: 0 <= i < |rest| ==> rest[i] == disputes[i + 1];
      CountsPartition(rest);
      assert disputes[0].status in {"Open", "In Review", "Resolved"};
    }
  }

  /** A count over six disputes, one by one. */
  lemma CountSix(s: seq<Dispute>, status: string)
    requires |s| == 6
    ensures CountStatus(s, status) ==
              (if s[0].status == status then 1 else 0) + (if s[1].status == status then 1 else 0)
              + (if s[2].status == status then 1 else 0) + (if s[3].status == status then 1 else 0)
              + (if s[4].status == status then 1 else 0) + (if s[5].status == status then 1 else 0)
  {
    var s1, s2, s3, s4, s5 := s[1..], s[2..], s[3..], s[4..], s[5..];
    assert s1[1..] == s2 && s2[1..] == s3 && s3[1..] == s4 && s4[1..] == s5 && s5[1..] == [];
    assert CountStatus(s5, status) == if s[5].status == status then 1 else 0;
    assert CountStatus(s4, status) == (if s[4].status == status then 1 else 0) + CountStatus(s5, status);
    assert CountStatus(s3, status) == (if s[3].status == status then 1 else 0) + CountStatus(s4, status);
    assert CountStatus(s2, status) == (if s[2].status == status then 1 else 0) + CountStatus(s3, status);
    assert CountStatus(s1, status) == (if s[1].status == status then 1 else 0) + CountStatus(s2, status);
  }

  /** The sample holds three open, one in review and two resolved disputes, six in all. */
  lemma SampleCounts()
    ensures CountStatus(SampleDisputes, "Open") == 3
    ensures CountStatus(SampleDisputes, "In Review") == 1
    ensures CountStatus(SampleDisputes, "Resolved") == 2
    ensures CountStatus(SampleDisputes, "Open") + CountStatus(SampleDisputes, "In Review")
              + CountStatus(SampleDisputes, "Resolved") == |SampleDisputes|
  {
    CountSix(SampleDisputes, "Open");
    CountSix(SampleDisputes, "In Review");
    CountSix(SampleDisputes, "Resolved");
  }

  /** How a status is displayed. */
  datatype StatusConfig = StatusConfig(icon: string, color: string)

  const OpenConfig := StatusConfig("Clock", "bg-destructive/15 text-destructive")
  const ReviewConfig := StatusConfig("MessageCircle", "bg-farm-gold/15 text-farm-gold")
  const ResolvedConfig := StatusConfig("CheckCircle", "bg-farm-success/15 text-farm-success")

  /** `statusConfig[status] || statusConfig.Open`. */
  function StatusConfigOf(status: string): (c: StatusConfig)
    ensures status == "In Review" ==> c == ReviewConfig
    ensures status == "Resolved" ==> c == ResolvedConfig
    ensures status != "In Review" && status != "Resolved" ==> c == OpenConfig
  {
    if status == "In Review" then ReviewConfig
    else if status == "Resolved" then ResolvedConfig
    else OpenConfig
  }
}
