/** The bottom-up forecast page: the zone / region / season filters, updated
    one key at a time, and the save-draft and submit buttons. */
module BottomUpForecast {
  import opened FileUploadBox

  datatype Filters = Filters(zone: string, region: string, season: string)

  const DraftSavedToast: Toast := Toast("Draft Saved", "Your forecast has been saved as draft.", false)

  const SubmittedToast: Toast :=
    Toast("Forecast Submitted", "Your forecast has been submitted to Zone Sales Manager for review.", false)

  /** The page's state. The forecast table and the upload box keep their
      own state, which the page never reads. */
  class BottomUpForecastPage {
    var filters: Filters

    constructor ()
      ensures filters == Filters("north", "all", "kharif")
    {
      filters := Filters("north", "all", "kharif");
    }

    /** The zone selector's change handler. */
    method OnZoneChange(value: string)
      modifies this
      ensures filters.zone == value
      ensures filters.region == old(filters.region) && filters.season == old(filters.season)
    {
      filters := filters.(zone := value);
    }

    /** The region selector's change handler. */
    method OnRegionChange(value: string)
      modifies this
      ensures filters.region == value
      ensures filters.zone == old(filters.zone) && filters.season == old(filters.season)
    {
      filters := filters.(region := value);
    }

    /** The season selector's change handler. */
    method OnSeasonChange(value: string)
      modifies this
      ensures filters.season == value
      ensures filters.zone == old(filters.zone) && filters.region == old(filters.region)
    {
      filters := filters.(season := value);
    }

    /** "Save as Draft": always reports success and changes nothing. */
    method HandleSaveDraft() returns (t: Toast)
      ensures t == DraftSavedToast && !t.destructive
      ensures filters == old(filters)
    {
      t := DraftSavedToast;
    }

    /** "Submit to ZSM": always reports success and changes nothing; no
        variance or remark is checked first. */
    method HandleSubmitToZsm() returns (t: Toast)
      ensures t == SubmittedToast && !t.destructive
      ensures filters == old(filters)
    {
      t := SubmittedToast;
    }
  }

  /** Updating one key of the filter record and then another gives the
      same record in either order when the keys differ, and the later value
      wins when the key is the same. */
  lemma FilterChangesCommute(zone: string, region: string, season: string, other: string)
    ensures forall f: Filters :: f.(zone := zone).(region := region) == f.(region := region).(zone := zone)
    ensures forall f: Filters :: f.(region := region).(season := season) == f.(season := season).(region := region)
    ensures forall f: Filters :: f.(zone := zone).(season := season) == f.(season := season).(zone := zone)
    ensures forall f: Filters :: f.(zone := other).(zone := zone) == f.(zone := zone)
    ensures forall f: Filters :: f.(region := other).(region := region) == f.(region := region)
    ensures forall f: Filters :: f.(season := other).(season := season) == f.(season := season)
  {
  }
}
