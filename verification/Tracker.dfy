/** The PVs a Provision or Delete call is working on. */
module Tracker {

  class ProvisioningTracker {
    var request: set<string>

    constructor ()
      ensures request == {}
    {
      request := {};
    }

    method Add(pvName: string)
      modifies this
      ensures request == old(request) + {pvName}
    {
      request := request + {pvName};
    }

    method Delete(pvName: string)
      modifies this
      ensures request == old(request) - {pvName}
    {
      request := request - {pvName};
    }

    method Inprogress(pvName: string) returns (b: bool)
      ensures b <==> pvName in request
    {
      b := pvName in request;
    }
  }
}
