/**
 * The configuration state of the calorimeter/track reader
 * (AliCaloTrackReader.h): the detector switches, the input data type and
 * the calo-filter patch gated on it, the centrality bin, the cluster energy
 * smearing parameters and the lazily created fiducial cut.
 *
 * Only the inline setters and getters of the header are modelled.  The
 * Float_t and Int_t fields are `real` and `int`; the fixed arrays
 * fCentralityBin[2] and fSmearClusterParam[3] stay arrays.
 */
module CaloTrackReader {

  /** enum inputDataType {kESD, kAOD, kMC} */
  const ESD: int := 0
  const AOD: int := 1
  const MC: int := 2

  /** An AliFiducialCut; what it cuts is not part of this model, only its identity */
  class FiducialCut {
    constructor ()
    {
    }
  }

  class Reader {
    /** fDataType: ESD, AOD or MC, but SetDataType stores any value */
    var dataType: int
    /** fFiducialCut, null until it is set or first asked for */
    var fiducialCut: FiducialCut?
    /** fCheckFidCut */
    var checkFidCut: bool

    /** fFillCTS, fFillEMCAL, fFillPHOS, fFillEMCALCells, fFillPHOSCells */
    var fillCTS: bool
    var fillEMCAL: bool
    var fillPHOS: bool
    var fillEMCALCells: bool
    var fillPHOSCells: bool
    /** fSelectEmbeddedClusters */
    var selectEmbeddedClusters: bool

    /** fCaloFilterPatch */
    var caloFilterPatch: bool

    /** fCentralityOpt: 5, 10 or 100 by convention, any value as stored */
    var centralityOpt: int
    /** fCentralityBin[2]: the minimum and the maximum centrality */
    const centralityBin: array<int>

    /** fSmearClusterEnergy and fSmearClusterParam[3] */
    var smearClusterEnergy: bool
    const smearClusterParam: array<real>

    /** The fixed array sizes of the class */
    ghost predicate Valid()
    {
      centralityBin.Length == 2 && smearClusterParam.Length == 3
    }

    /**
     * A reader with every switch off, no fiducial cut and zeroed arrays.
     * The real defaults are set out of line by InitParameters, which is not
     * part of this model.
     */
    constructor (data: int)
      ensures Valid() && dataType == data && fiducialCut == null && !checkFidCut
      ensures !fillCTS && !fillEMCAL && !fillPHOS && !fillEMCALCells && !fillPHOSCells && !selectEmbeddedClusters
      ensures !caloFilterPatch && !smearClusterEnergy && centralityOpt == 0
      ensures centralityBin[..] == [0, 0] && smearClusterParam[..] == [0.0, 0.0, 0.0]
      ensures fresh(centralityBin) && fresh(smearClusterParam)
    {
      dataType := data;
      fiducialCut := null;
      checkFidCut := false;
      fillCTS, fillEMCAL, fillPHOS, fillEMCALCells, fillPHOSCells := false, false, false, false, false;
      selectEmbeddedClusters := false;
      caloFilterPatch := false;
      centralityOpt := 0;
      centralityBin := new int[2](_ => 0);
      smearClusterEnergy := false;
      smearClusterParam := new real[3](_ => 0.0);
    }

    // -------------------------------------------------------------------------
    // Data type
    // -------------------------------------------------------------------------

    function GetDataType(): (d: int)
      reads this
      ensures d == dataType
    {
      dataType
    }

    method SetDataType(data: int)
      modifies this`dataType
      ensures GetDataType() == data
    {
      dataType := data;
    }

    // -------------------------------------------------------------------------
    // Fiducial cut
    // -------------------------------------------------------------------------

    /**
     * GetFiducialCut: never null; the cut already held is returned, and if
     * there is none a fresh one is created, kept and returned.
     */
    method GetFiducialCut() returns (cut: FiducialCut)
      modifies this`fiducialCut
      ensures old(fiducialCut) != null ==> cut == old(fiducialCut)
      ensures old(fiducialCut) == null ==> fresh(cut)
      ensures fiducialCut == cut
    {
      if fiducialCut == null {
        fiducialCut := new FiducialCut();
      }
      cut := fiducialCut;
    }

    /** SetFiducialCut keeps the given cut, null included */
    method SetFiducialCut(fc: FiducialCut?)
      modifies this`fiducialCut
      ensures fiducialCut == fc
    {
      fiducialCut := fc;
    }

    predicate IsFiducialCutOn()
      reads this
    {
      checkFidCut
    }

    /** SwitchOnFiducialCut turns the check on and replaces any held cut by a fresh one */
    method SwitchOnFiducialCut()
      modifies this`checkFidCut, this`fiducialCut
      ensures IsFiducialCutOn() && fiducialCut != null && fresh(fiducialCut)
    {
      checkFidCut := true;
      fiducialCut := new FiducialCut();
    }

    /** SwitchOffFiducialCut turns the check off and keeps the cut */
    method SwitchOffFiducialCut()
      modifies this`checkFidCut
      ensures !IsFiducialCutOn()
    {
      checkFidCut := false;
    }

    // -------------------------------------------------------------------------
    // Detector switches: each sets its own flag and nothing else
    // -------------------------------------------------------------------------

    predicate IsCTSSwitchedOn() reads this { fillCTS }
    predicate IsEMCALSwitchedOn() reads this { fillEMCAL }
    predicate IsPHOSSwitchedOn() reads this { fillPHOS }
    predicate IsEMCALCellsSwitchedOn() reads this { fillEMCALCells }
    predicate IsPHOSCellsSwitchedOn() reads this { fillPHOSCells }

    method SwitchOnCTS()
      modifies this`fillCTS
      ensures IsCTSSwitchedOn()
    {
      fillCTS := true;
    }

    method SwitchOffCTS()
      modifies this`fillCTS
      ensures !IsCTSSwitchedOn()
    {
      fillCTS := false;
    }

    method SwitchOnEMCAL()
      modifies this`fillEMCAL
      ensures IsEMCALSwitchedOn()
    {
      fillEMCAL := true;
    }

    method SwitchOffEMCAL()
      modifies this`fillEMCAL
      ensures !IsEMCALSwitchedOn()
    {
      fillEMCAL := false;
    }

    method SwitchOnPHOS()
      modifies this`fillPHOS
      ensures IsPHOSSwitchedOn()
    {
      fillPHOS := true;
    }

    method SwitchOffPHOS()
      modifies this`fillPHOS
      ensures !IsPHOSSwitchedOn()
    {
      fillPHOS := false;
    }

    method SwitchOnEMCALCells()
      modifies this`fillEMCALCells
      ensures IsEMCALCellsSwitchedOn()
    {
      fillEMCALCells := true;
    }

    method SwitchOffEMCALCells()
      modifies this`fillEMCALCells
      ensures !IsEMCALCellsSwitchedOn()
    {
      fillEMCALCells := false;
    }

    method SwitchOnPHOSCells()
      modifies this`fillPHOSCells
      ensures IsPHOSCellsSwitchedOn()
    {
      fillPHOSCells := true;
    }

    method SwitchOffPHOSCells()
      modifies this`fillPHOSCells
      ensures !IsPHOSCellsSwitchedOn()
    {
      fillPHOSCells := false;
    }

    method SwitchOnEmbeddedClustersSelection()
      modifies this`selectEmbeddedClusters
      ensures selectEmbeddedClusters
    {
      selectEmbeddedClusters := true;
    }

    method SwitchOffEmbeddedClustersSelection()
      modifies this`selectEmbeddedClusters
      ensures !selectEmbeddedClusters
    {
      selectEmbeddedClusters := false;
    }

    // -------------------------------------------------------------------------
    // Calo filter patch
    // -------------------------------------------------------------------------

    /** The patch is on only for AOD input, and then exactly when its flag is set */
    function IsCaloFilterPatchOn(): (on: bool)
      reads this
      ensures on ==> GetDataType() == AOD
      ensures GetDataType() == AOD ==> on == caloFilterPatch
    {
      if dataType == AOD then caloFilterPatch else false
    }

    /** Switching the patch on switches the central tracking (CTS) off */
    method SwitchOnCaloFilterPatch()
      modifies this`caloFilterPatch, this`fillCTS
      ensures caloFilterPatch && !IsCTSSwitchedOn()
      ensures IsCaloFilterPatchOn() <==> GetDataType() == AOD
    {
      caloFilterPatch := true;
      fillCTS := false;
    }

    /** Switching the patch off leaves the CTS switch as it is */
    method SwitchOffCaloFilterPatch()
      modifies this`caloFilterPatch
      ensures !caloFilterPatch && !IsCaloFilterPatchOn()
    {
      caloFilterPatch := false;
    }

    // -------------------------------------------------------------------------
    // Centrality
    // -------------------------------------------------------------------------

    function GetCentralityOpt(): (opt: int)
      reads this
      ensures opt == centralityOpt
    {
      centralityOpt
    }

    method SetCentralityOpt(opt: int)
      modifies this`centralityOpt
      ensures GetCentralityOpt() == opt
    {
      centralityOpt := opt;
    }

    /** Bound 0 is the minimum, bound 1 the maximum; any other index reads as 0 */
    function GetCentralityBin(i: int): (b: int)
      requires Valid()
      reads centralityBin
      ensures 0 <= i < 2 ==> b == centralityBin[i]
      ensures (i < 0 || i > 1) ==> b == 0
    {
      if i < 0 || i > 1 then 0 else centralityBin[i]
    }

    /**
     * SetCentralityBin stores both bounds; a bin with a non-negative minimum
     * and a positive maximum also selects the percentile option 100, any
     * other bin leaves the option as it was.
     */
    method SetCentralityBin(min: int, max: int)
      requires Valid()
      modifies centralityBin, this`centralityOpt
      ensures GetCentralityBin(0) == min && GetCentralityBin(1) == max
      ensures centralityBin[..] == [min, max]
      ensures GetCentralityOpt() == if min >= 0 && max > 0 then 100 else old(centralityOpt)
    {
      centralityBin[0] := min;
      centralityBin[1] := max;
      if min >= 0 && max > 0 {
        centralityOpt := 100;
      }
    }

    // -------------------------------------------------------------------------
    // Cluster energy smearing
    // -------------------------------------------------------------------------

    predicate IsClusterEnergySmeared() reads this { smearClusterEnergy }

    method SwitchOnClusterEnergySmearing()
      modifies this`smearClusterEnergy
      ensures IsClusterEnergySmeared()
    {
      smearClusterEnergy := true;
    }

    method SwitchOffClusterEnergySmearing()
      modifies this`smearClusterEnergy
      ensures !IsClusterEnergySmeared()
    {
      smearClusterEnergy := false;
    }

    /** SetSmearingParameters writes parameter `i` when i < 3 and ignores any larger index */
    method SetSmearingParameters(i: int, param: real)
      requires Valid() && 0 <= i
      modifies smearClusterParam
      ensures i < 3 ==> smearClusterParam[..] == old(smearClusterParam[..])[i := param]
      ensures i >= 3 ==> smearClusterParam[..] == old(smearClusterParam[..])
    {
      if i < 3 {
        smearClusterParam[i] := param;
      }
    }
  }
}
