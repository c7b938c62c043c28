/** The administrator's grievance page (src/pages/admin/Grievances.tsx). */
module AdminGrievances {
  import opened Wrappers
  import opened Rows
  import opened Query
  import opened Store
  import Strings

  /** The update `updateStatus(id, status)` sends: the status, the typed response and the time. */
  function ResponsePatch(status: string, response: string, now: Time): (p: GrievancePatch)
    ensures p.status == status && p.admin_response == response && p.updated_at == now
  {
    GrievancePatch(status, response, now)
  }

  /**
   * Any status can be set from any current status, with no guard; the row gets
   * the response as `admin_response` and `now` as `updated_at`, and nothing else.
   */
  lemma ResponsePatchEffect(g: Grievance, status: string, response: string, now: Time)
    ensures ApplyGrievancePatch(g, ResponsePatch(status, response, now))
      == g.(status := status, admin_response := Some(response), updated_at := Some(now))
  {
  }

  /** The badge's text: the first "-" of the status becomes a space. */
  function BadgeText(status: string): (text: string)
    ensures |text| == |status|
    ensures '-' !in status ==> text == status
    ensures '-' in status ==> exists k :: 0 <= k < |status| && status[k] == '-' && '-' !in status[..k]
                                         && text == status[..k] + " " + status[k + 1..]
  {
    Strings.ReplaceFirst(status, '-', ' ')
  }

  lemma BadgeTextInProgress()
    ensures BadgeText("in-progress") == "in progress"
  {
    var s := "in-progress";
    assert s == "in" + ['-'] + "progress";
    Strings.IndexOfFirst("in", '-', "progress");
    assert s[..2] + [' '] + s[3..] == "in progress";
  }

  /** `getStatusBadge`: an unknown status is styled as pending. */
  function StatusBadge(status: string): (b: Badge)
    ensures b.text == BadgeText(status)
    ensures b.variant == Default <==> status == "in-progress" || status == "resolved"
    ensures b.variant == Secondary <==> status != "in-progress" && status != "resolved"
  {
    var variant := match status
      case "in-progress" => Default
      case "resolved" => Default
      case _ => Secondary;
    Badge(variant, BadgeText(status))
  }

  /** Every grievance, newest first. */
  function AllGrievances(rows: seq<Grievance>): seq<Grievance> {
    SortDesc(rows, GrievanceCreatedAt)
  }

  class AdminGrievancesPage {
    var grievances: seq<Grievance>
    var loading: bool
    /** The text in the Admin Response box. */
    var response: string
    var toast: Option<Toast>

    constructor ()
      ensures grievances == [] && loading && response == "" && toast == None
    {
      grievances, loading, response, toast := [], true, "", None;
    }

    method EditResponse(text: string)
      modifies this
      ensures response == text
      ensures grievances == old(grievances) && loading == old(loading) && toast == old(toast)
    {
      response := text;
    }

    /** `fetchGrievances`; on a read error the list is kept and only logged. */
    method FetchGrievances(store: Store, readFails: bool)
      modifies this
      ensures !loading && response == old(response) && toast == old(toast)
      ensures grievances == if readFails then old(grievances) else AllGrievances(store.grievances)
    {
      if !readFails {
        grievances := AllGrievances(store.grievances);
      }
      loading := false;
    }

    /**
     * `updateStatus`: on success the response box is cleared and the list is
     * refetched; on error the response text is kept and the store's message is shown.
     */
    method UpdateStatus(store: Store, id: Id, status: string, now: Time,
                        writeError: Option<string>, refetchFails: bool)
      requires store.Valid()
      modifies this, store
      ensures store.Valid()
      ensures writeError.Some? ==>
        && store.grievances == old(store.grievances)
        && grievances == old(grievances) && loading == old(loading) && response == old(response)
        && toast == Some(ErrorToast(writeError.value))
      ensures writeError.None? ==>
        && store.grievances == PatchGrievances(old(store.grievances), id, ResponsePatch(status, old(response), now))
        && response == "" && !loading
        && toast == Some(SuccessToast("Grievance " + status + " successfully!"))
        && grievances == if refetchFails then old(grievances) else AllGrievances(store.grievances)
      ensures store.certificates == old(store.certificates) && store.propertyTax == old(store.propertyTax)
      ensures store.userRoles == old(store.userRoles) && store.announcements == old(store.announcements)
      ensures store.profiles == old(store.profiles)
    {
      if writeError.Some? {
        toast := Some(ErrorToast(writeError.value));
        return;
      }
      store.UpdateGrievance(id, ResponsePatch(status, response, now));
      toast := Some(SuccessToast("Grievance " + status + " successfully!"));
      response := "";
      FetchGrievances(store, refetchFails);
    }
  }
}
