/**
 * The booking form of the business card: it loads the business and its
 * services, keeps the chosen service, date and contact fields, and
 * validates them on submit.  Nothing is persisted.
 */
module Booking {
  import opened Wrappers
  import opened Seqs
  import opened Models
  import opened Storage

  /** `services.find(s => s.id === id)`. */
  function FindService(services: seq<Service>, id: string): (r: Option<Service>)
    ensures r.None? <==> forall i :: 0 <= i < |services| ==> services[i].id != id
    ensures r.Some? ==> exists i :: 0 <= i < |services| && services[i] == r.value && services[i].id == id
                                    && forall j :: 0 <= j < i ==> services[j].id != id
  {
    var r := Find((s: Service) => s.id == id, services);
    assert r.Some? ==> exists i :: IsFirst((s: Service) => s.id == id, services, i) && services[i] == r.value;
    r
  }

  /** With unique service ids, looking up a listed service's id yields that service. */
  lemma FindListedService(services: seq<Service>, k: int)
    requires 0 <= k < |services|
    requires forall i, j :: 0 <= i < j < |services| ==> services[i].id != services[j].id
    ensures FindService(services, services[k].id) == Some(services[k])
  {
    var r := FindService(services, services[k].id);
    var i :| 0 <= i < |services| && services[i] == r.value && services[i].id == services[k].id
             && forall j :: 0 <= j < i ==> services[j].id != services[k].id;
    assert i == k;
  }

  datatype SubmitOutcome = MissingInformation | BookingConfirmed(service: Service, date: int, navigateTo: string)

  /** The required-field check of `handleSubmit`; a confirmed booking leads home. */
  function ValidateBooking(service: Option<Service>, date: Option<int>, name: string, email: string, phone: string)
    : (o: SubmitOutcome)
    ensures o.MissingInformation? <==> service.None? || date.None? || name == "" || email == "" || phone == ""
    ensures o.BookingConfirmed? ==> o.service == service.value && o.date == date.value && o.navigateTo == "/"
  {
    if service.None? || date.None? || name == "" || email == "" || phone == "" then MissingInformation
    else BookingConfirmed(service.value, date.value, "/")
  }

  datatype Screen = LoadingBusinessInfo | BookingFormShown

  class BookingForm {
    /** The `serviceId` passed in the navigation state. */
    const serviceId: Option<string>
    var businessInfo: Option<BusinessInfo>
    var selectedService: Option<Service>
    var selectedDate: Option<int>
    var name: string
    var email: string
    var phone: string

    /** The initial state: nothing loaded, today's date selected, empty contact fields. */
    constructor(serviceId: Option<string>, today: int)
      ensures this.serviceId == serviceId && businessInfo == None && selectedService == None
      ensures selectedDate == Some(today) && name == "" && email == "" && phone == ""
    {
      this.serviceId := serviceId;
      businessInfo, selectedService, selectedDate := None, None, Some(today);
      name, email, phone := "", "", "";
    }

    /** What is rendered: a loading note until business info is there. */
    function CurrentScreen(): (s: Screen)
      reads this
      ensures s == LoadingBusinessInfo <==> businessInfo.None?
    {
      if businessInfo.None? then LoadingBusinessInfo else BookingFormShown
    }

    /**
     * The load effect: stores the business info when there is one, and
     * preselects the service named by a non-empty `serviceId` when the
     * business offers it.
     */
    method LoadBusiness(items: Items)
      modifies this
      ensures LoadBusinessInfo(items).None? ==> businessInfo == old(businessInfo)
      ensures LoadBusinessInfo(items).Some? ==> businessInfo == LoadBusinessInfo(items)
      ensures var info := LoadBusinessInfo(items);
        if info.Some? && serviceId.Some? && serviceId.value != "" && FindService(info.value.services, serviceId.value).Some?
        then selectedService == FindService(info.value.services, serviceId.value)
        else selectedService == old(selectedService)
      ensures selectedDate == old(selectedDate) && name == old(name) && email == old(email) && phone == old(phone)
    {
      var info := LoadBusinessInfo(items);
      if info.Some? {
        businessInfo := info;
        if serviceId.Some? && serviceId.value != "" {
          var service := FindService(info.value.services, serviceId.value);
          if service.Some? {
            selectedService := service;
          }
        }
      }
    }

    /** The service select, which exists only once business info is shown. */
    method SelectService(id: string)
      requires businessInfo.Some?
      modifies this
      ensures businessInfo == old(businessInfo) && selectedDate == old(selectedDate)
      ensures selectedService == FindService(businessInfo.value.services, id)
      ensures name == old(name) && email == old(email) && phone == old(phone)
    {
      selectedService := FindService(businessInfo.value.services, id);
    }

    /** `handleSubmit`: validates, and changes no state. */
    method HandleSubmit() returns (o: SubmitOutcome)
      ensures o == ValidateBooking(selectedService, selectedDate, name, email, phone)
      ensures o.BookingConfirmed? ==> o.navigateTo == "/" && Some(o.service) == selectedService
    {
      o := ValidateBooking(selectedService, selectedDate, name, email, phone);
    }
  }
}
